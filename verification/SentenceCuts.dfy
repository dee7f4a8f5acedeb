/** Where the sentence scan cuts a text, and where it must not: inside numbers, versions and after abbreviations. */
module SentenceCuts {
  import opened TextNormalization
  import opened TextSegmenter

  /** The places at which the scan ends a sentence, looking from `i` on. */
  function CutsFrom(t: Tables, text: string, i: nat): seq<nat>
    requires i <= |text|
    decreases |text| - i
  {
    if i == |text| then []
    else if IsBoundary(t, text, i) then
      var end := SkipClosers(text, i + 1);
      [end] + CutsFrom(t, text, end)
    else CutsFrom(t, text, i + 1)
  }

  predicate Within(text: string, start: nat, cuts: seq<nat>) {
    start <= |text| && forall j :: 0 <= j < |cuts| ==> start <= cuts[j] <= |text| && (j > 0 ==> cuts[j - 1] <= cuts[j])
  }

  /** The stripped stretches between the cuts that are not blank. */
  function Stretches(text: string, start: nat, cuts: seq<nat>): seq<string>
    requires Within(text, start, cuts)
    decreases |cuts|
  {
    if cuts == [] then Piece(text[start..])
    else
      LaterCuts(text, start, cuts);
      Piece(text[start..cuts[0]]) + Stretches(text, cuts[0], cuts[1..])
  }

  lemma LaterCuts(text: string, start: nat, cuts: seq<nat>)
    requires Within(text, start, cuts) && cuts != []
    ensures Within(text, cuts[0], cuts[1..])
  {
    var rest := cuts[1..];
    Ascending(text, start, cuts);
    forall j | 0 <= j < |rest| ensures cuts[0] <= rest[j] <= |text| && (j > 0 ==> rest[j - 1] <= rest[j]) {
      assert rest[j] == cuts[j + 1];
    }
  }

  lemma {:induction false} Ascending(text: string, start: nat, cuts: seq<nat>)
    requires Within(text, start, cuts)
    ensures forall i, j :: 0 <= i <= j < |cuts| ==> cuts[i] <= cuts[j]
  {
    if |cuts| > 0 {
      var front := cuts[..|cuts| - 1];
      Ascending(text, start, front);
      forall i, j | 0 <= i <= j < |cuts| ensures cuts[i] <= cuts[j] {
        if i < j && j == |cuts| - 1 { assert front[i] <= front[|front| - 1] == cuts[j - 1] <= cuts[j]; }
        if j < |cuts| - 1 { assert front[i] <= front[j]; }
      }
    }
  }

  lemma {:induction false} CutsAreWithin(t: Tables, text: string, i: nat, start: nat)
    requires start <= i <= |text|
    ensures Within(text, start, CutsFrom(t, text, i))
    decreases |text| - i
  {
    if i < |text| {
      if IsBoundary(t, text, i) {
        var end := SkipClosers(text, i + 1);
        CutsAreWithin(t, text, end, end);
      } else {
        CutsAreWithin(t, text, i + 1, start);
      }
    }
  }

  /** The sentences are the stretches between the cuts. */
  lemma {:induction false} SentencesLieBetweenCuts(t: Tables, text: string, start: nat, i: nat)
    requires start <= i <= |text|
    ensures Within(text, start, CutsFrom(t, text, i))
    ensures UnitsFrom(t, text, start, i) == Stretches(text, start, CutsFrom(t, text, i))
    decreases |text| - i
  {
    CutsAreWithin(t, text, i, start);
    if i < |text| {
      if IsBoundary(t, text, i) {
        var end := SkipClosers(text, i + 1);
        SentencesLieBetweenCuts(t, text, end, end);
        assert CutsFrom(t, text, i)[1..] == CutsFrom(t, text, end);
      } else {
        SentencesLieBetweenCuts(t, text, start, i + 1);
      }
    }
  }

  lemma {:induction false} SkippedAreClosers(text: string, i: nat)
    requires i <= |text|
    ensures var end := SkipClosers(text, i); forall k :: i <= k < end ==> text[k] in CLOSERS
    decreases |text| - i
  {
    if i < |text| && text[i] in CLOSERS { SkippedAreClosers(text, i + 1); }
  }

  lemma BoundariesAreNoClosers(t: Tables, text: string, i: nat)
    requires i < |text| && IsBoundary(t, text, i)
    ensures text[i] !in CLOSERS
  {
  }

  /** A sentence ends at `c`, behind the boundary at `i` and the closing marks that follow it. */
  predicate EndsBehind(t: Tables, text: string, i: nat, c: nat) {
    i < |text| && IsBoundary(t, text, i) && c == SkipClosers(text, i + 1)
  }

  lemma {:induction false} CutHasABoundary(t: Tables, text: string, from: nat, c: nat)
    requires from <= |text| && c in CutsFrom(t, text, from)
    ensures exists i: nat :: EndsBehind(t, text, i, c)
    decreases |text| - from
  {
    if IsBoundary(t, text, from) {
      var end := SkipClosers(text, from + 1);
      if c == end {
        assert EndsBehind(t, text, from, c);
      } else {
        CutHasABoundary(t, text, end, c);
      }
    } else {
      CutHasABoundary(t, text, from + 1, c);
    }
  }

  lemma {:induction false} BoundaryHasACut(t: Tables, text: string, from: nat, i: nat)
    requires from <= i < |text| && IsBoundary(t, text, i)
    ensures SkipClosers(text, i + 1) in CutsFrom(t, text, from)
    decreases |text| - from
  {
    if from < i {
      if IsBoundary(t, text, from) {
        SkippedAreClosers(text, from + 1);
        BoundariesAreNoClosers(t, text, i);
        BoundaryHasACut(t, text, SkipClosers(text, from + 1), i);
      } else {
        BoundaryHasACut(t, text, from + 1, i);
      }
    }
  }

  /** Sentences end exactly behind the boundaries and the closing marks that follow them. */
  lemma CutsAreBehindBoundaries(t: Tables, text: string, c: nat)
    ensures c in CutsFrom(t, text, 0) <==> exists i: nat :: EndsBehind(t, text, i, c)
  {
    if c in CutsFrom(t, text, 0) { CutHasABoundary(t, text, 0, c); }
    if i: nat :| EndsBehind(t, text, i, c) { BoundaryHasACut(t, text, 0, i); }
  }

  /** The last character of a sentence is a boundary or a closing mark. */
  lemma CutFollowsBoundaryOrCloser(t: Tables, text: string, c: nat)
    requires c in CutsFrom(t, text, 0)
    ensures 0 < c <= |text| && (text[c - 1] in CLOSERS || IsBoundary(t, text, c - 1))
  {
    CutHasABoundary(t, text, 0, c);
    var i: nat :| EndsBehind(t, text, i, c);
    SkippedAreClosers(text, i + 1);
    if i + 1 < c { assert text[c - 1] in CLOSERS; }
  }

  /** Letters and digits are not punctuation, and digits count as letters or digits. */
  ghost predicate Sensible(t: Tables) {
    forall c :: t.isAlnum(c) ==> c !in CLOSERS && c !in HARD_PUNCT && c != '\n' && c != '.' && c != '…' && c != '—'
  }

  /** A full stop between letters or digits, as in a decimal, a version, an address or a file name, is not cut at:
      neither before nor behind it does a sentence end. */
  lemma NumbersAndNamesStayWhole(t: Tables, text: string, i: nat)
    requires Sensible(t) && 0 < i < |text| - 1 && text[i] == '.' && t.isAlnum(text[i - 1]) && t.isAlnum(text[i + 1])
    ensures i !in CutsFrom(t, text, 0) && i + 1 !in CutsFrom(t, text, 0)
  {
    if i in CutsFrom(t, text, 0) { CutFollowsBoundaryOrCloser(t, text, i); }
    if i + 1 in CutsFrom(t, text, 0) { CutFollowsBoundaryOrCloser(t, text, i + 1); }
  }

  /** The characters up to and including a full stop, as far as the scan looks back, in lower case. */
  function LookBack(t: Tables, text: string, i: nat): string
    requires i < |text|
  {
    LowerAll(t, text[Max(0, i - 8)..i + 1])
  }

  /** No sentence ends at the full stop of an abbreviation. */
  lemma AbbreviationsEndNoSentence(t: Tables, text: string, i: nat, k: nat)
    requires i < |text| && text[i] == '.' && k < |ABBREVIATIONS| && EndsWith(LookBack(t, text, i), ABBREVIATIONS[k])
    ensures i + 1 !in CutsFrom(t, text, 0)
  {
    if i + 1 in CutsFrom(t, text, 0) { CutFollowsBoundaryOrCloser(t, text, i + 1); }
  }

  // ---------- where exactly sentences end ----------

  /** Apart from the closing marks, a sentence ends where there is a boundary, and nowhere else. */
  lemma CutBehindExactlyTheBoundaries(t: Tables, text: string, i: nat)
    requires i < |text| && text[i] !in CLOSERS
    ensures SkipClosers(text, i + 1) in CutsFrom(t, text, 0) <==> IsBoundary(t, text, i)
  {
    var c := SkipClosers(text, i + 1);
    if IsBoundary(t, text, i) { BoundaryHasACut(t, text, 0, i); }
    if c in CutsFrom(t, text, 0) {
      CutHasABoundary(t, text, 0, c);
      var j: nat :| EndsBehind(t, text, j, c);
      BoundariesAreNoClosers(t, text, j);
      OnePlaceForEachCut(text, i, j);
    }
  }

  lemma OnePlaceForEachCut(text: string, i: nat, j: nat)
    requires i < |text| && j < |text| && text[i] !in CLOSERS && text[j] !in CLOSERS
    requires SkipClosers(text, i + 1) == SkipClosers(text, j + 1)
    ensures i == j
  {
    SkippedAreClosers(text, i + 1);
    SkippedAreClosers(text, j + 1);
  }

  /** The end of a line and the full stops of Chinese and English other than the point always end a sentence. */
  lemma MarksEndSentences(t: Tables, text: string, i: nat)
    requires i < |text| && text[i] in "\n。！？!?；;"
    ensures SkipClosers(text, i + 1) in CutsFrom(t, text, 0)
  {
    assert text[i] !in CLOSERS;
    CutBehindExactlyTheBoundaries(t, text, i);
  }

  /** A run of dots or dashes ends a sentence, once, at its end. */
  lemma RunsEndSentencesAtTheirEnd(t: Tables, text: string, i: nat)
    requires i < |text| && (text[i] == '…' || text[i] == '—')
    ensures SkipClosers(text, i + 1) in CutsFrom(t, text, 0) <==> i == |text| - 1 || text[i + 1] != text[i]
  {
    CutBehindExactlyTheBoundaries(t, text, i);
  }

  /** The point at `i` is inside a number or a name. */
  predicate Joins(t: Tables, text: string, i: nat)
    requires i < |text|
  {
    0 < i < |text| - 1
    && ((t.isDigit(text[i - 1]) && t.isDigit(text[i + 1])) || (t.isAlnum(text[i - 1]) && t.isAlnum(text[i + 1])))
  }

  predicate Abbreviation(s: string) {
    EndsWith(s, "mr.") || EndsWith(s, "mrs.") || EndsWith(s, "ms.") || EndsWith(s, "dr.") || EndsWith(s, "prof.")
    || EndsWith(s, "sr.") || EndsWith(s, "jr.") || EndsWith(s, "st.") || EndsWith(s, "vs.") || EndsWith(s, "etc.")
    || EndsWith(s, "e.g.") || EndsWith(s, "i.e.")
  }

  /** A point ends a sentence if and only if it neither joins nor abbreviates and is followed by white space, a closing
      mark or nothing. */
  lemma PointsEndSentencesExactlyWhen(t: Tables, text: string, i: nat)
    requires i < |text| && text[i] == '.'
    ensures SkipClosers(text, i + 1) in CutsFrom(t, text, 0) <==>
            (&& !Joins(t, text, i) && !Abbreviation(LookBack(t, text, i))
             && (i == |text| - 1 || IsSpace(text[i + 1]) || text[i + 1] in "”’》」』）)]}】〉"))
  {
    CutBehindExactlyTheBoundaries(t, text, i);
    PointIsBoundary(t, text, i);
  }

  lemma AbbreviationsAreListed(s: string)
    ensures Abbreviation(s) <==> exists k :: 0 <= k < |ABBREVIATIONS| && EndsWith(s, ABBREVIATIONS[k])
  {
    assert ABBREVIATIONS[0] == "mr." && ABBREVIATIONS[1] == "mrs." && ABBREVIATIONS[2] == "ms.";
    assert ABBREVIATIONS[3] == "dr." && ABBREVIATIONS[4] == "prof." && ABBREVIATIONS[5] == "sr.";
    assert ABBREVIATIONS[6] == "jr." && ABBREVIATIONS[7] == "st." && ABBREVIATIONS[8] == "vs.";
    assert ABBREVIATIONS[9] == "etc." && ABBREVIATIONS[10] == "e.g." && ABBREVIATIONS[11] == "i.e.";
  }

  /** The exceptions to a point's ending a sentence, and what has to follow. */
  lemma PointIsBoundary(t: Tables, text: string, i: nat)
    requires i < |text|
    ensures IsEnglishPeriodBoundary(t, text, i) <==>
            (&& !Joins(t, text, i) && !Abbreviation(LookBack(t, text, i))
             && (i == |text| - 1 || IsSpace(text[i + 1]) || text[i + 1] in "”’》」』）)]}】〉"))
  {
    AbbreviationsAreListed(LookBack(t, text, i));
  }

  /** Nothing else ends a sentence. */
  lemma OnlyMarksEndSentences(t: Tables, text: string, i: nat)
    requires i < |text| && text[i] !in CLOSERS && text[i] !in "\n。！？!?；;.…—"
    ensures SkipClosers(text, i + 1) !in CutsFrom(t, text, 0)
  {
    CutBehindExactlyTheBoundaries(t, text, i);
  }

  lemma {:induction false} AllClosersAreSkipped(text: string, i: nat)
    requires i <= |text|
    ensures var end := SkipClosers(text, i); end == |text| || text[end] !in CLOSERS
    decreases |text| - i
  {
    if i < |text| && text[i] in CLOSERS { AllClosersAreSkipped(text, i + 1); }
  }

  /** Closing marks stay with the sentence that they close: none begins what is left behind a cut. */
  lemma ClosersStayWithTheirSentence(t: Tables, text: string, c: nat)
    requires c in CutsFrom(t, text, 0)
    ensures c <= |text| && (c == |text| || text[c] !in "”’》」』）)]}】〉")
  {
    CutHasABoundary(t, text, 0, c);
    var i: nat :| EndsBehind(t, text, i, c);
    AllClosersAreSkipped(text, i + 1);
  }
}

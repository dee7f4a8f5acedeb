/** Exactly when taking out a placeholder undoes putting it in, and two families of texts that do not come back. */
module SpanLimits {
  import opened SpanProtection

  // ---------- one step ----------

  /** The first occurrence, when every other one begins inside it: the only place that a replacement changes. */
  ghost predicate OnlyHit(text: string, token: string, p: nat) {
    OccursAt(text, token, p)
    && forall q: nat :: q <= |text| && OccursAt(text, token, q) ==> p <= q < p + |token|
  }

  /** The original reads on across a placeholder that overlaps itself by all but `d` characters. */
  predicate Straddles(token: string, original: string, d: nat) {
    0 < d < |token| && original + token[|token| - d..] == token[..d] + original
  }

  /** The place that a replacement changes is where the placeholder was put in, or it makes no difference that it is
      not. */
  ghost predicate Undoable(after: string, span: Span, at: nat) {
    || span.original == span.token
    || OnlyHit(after, span.token, at)
    || exists p: nat :: p < at && OnlyHit(after, span.token, p) && Straddles(span.token, span.original, at - p)
  }

  ghost predicate Occurs(text: string, token: string) {
    exists q: nat :: q <= |text| && OccursAt(text, token, q)
  }

  /** Nothing before `p`, and a placeholder there. */
  ghost predicate FirstHit(text: string, token: string, p: nat) {
    OccursAt(text, token, p) && forall q: nat :: q <= |text| && OccursAt(text, token, q) ==> p <= q
  }

  lemma FirstHitFurtherOn(text: string, token: string, p: nat)
    requires token != [] && p > 0 && FirstHit(text, token, p)
    ensures FirstHit(text[1..], token, p - 1)
  {
    var rest := text[1..];
    assert rest[p - 1..p - 1 + |token|] == text[p..p + |token|];
    forall q: nat | q <= |rest| && OccursAt(rest, token, q) ensures p - 1 <= q {
      assert rest[q..q + |token|] == text[q + 1..q + 1 + |token|];
      assert OccursAt(text, token, q + 1);
    }
  }

  lemma {:induction false} FirstOf(text: string, token: string, q: nat) returns (p: nat)
    requires q <= |text| && OccursAt(text, token, q)
    ensures FirstHit(text, token, p)
    decreases q
  {
    p := q;
    if r: nat :| r < q && OccursAt(text, token, r) { p := FirstOf(text, token, r); }
  }

  lemma Regrouped(head: string, o: string, v: string, tail: string)
    ensures head + o + (v + tail) == head + (o + v) + tail
    ensures head + (o + v + tail) == (head + o) + v + tail
  {
  }

  /** A replacement goes on behind the first occurrence. */
  lemma {:induction false} ReplaceFromFirst(text: string, token: string, original: string, p: nat)
    requires token != [] && FirstHit(text, token, p)
    ensures Replace(text, token, original) == text[..p] + original + Replace(text[p + |token|..], token, original)
    decreases p
  {
    if p == 0 {
      ReplaceHere(text, token, original);
    } else {
      FirstHitFurtherOn(text, token, p);
      var rest := text[1..];
      ReplaceFromFirst(rest, token, original, p - 1);
      ReplaceOneBack(text, token, original, p, Replace(rest[p - 1 + |token|..], token, original));
      assert rest[p - 1 + |token|..] == text[p + |token|..];
    }
  }

  lemma ReplaceHere(text: string, token: string, original: string)
    requires token != [] && OccursAt(text, token, 0)
    ensures Replace(text, token, original) == text[..0] + original + Replace(text[|token|..], token, original)
  {
    assert text[..0] + original == original;
  }

  lemma ReplaceOneBack(text: string, token: string, original: string, p: nat, behind: string)
    requires token != [] && p > 0 && FirstHit(text, token, p)
    requires Replace(text[1..], token, original) == text[1..][..p - 1] + original + behind
    ensures Replace(text, token, original) == text[..p] + original + behind
  {
    assert !OccursAt(text, token, 0);
    ReplaceLater(text, token, original);
    OneBack(text, original, p, p + |token|, behind);
  }

  lemma ReplaceLater(text: string, token: string, original: string)
    requires token != [] && text != [] && !OccursAt(text, token, 0)
    ensures Replace(text, token, original) == [text[0]] + Replace(text[1..], token, original)
  {
  }

  lemma OneBack(text: string, original: string, p: nat, end: nat, behind: string)
    requires 0 < p <= end <= |text|
    ensures text[1..][end - 1..] == text[end..]
    ensures [text[0]] + (text[1..][..p - 1] + original + behind) == text[..p] + original + behind
  {
    assert text[..p] == [text[0]] + text[1..][..p - 1];
    Regrouped([text[0]], text[1..][..p - 1], original, behind);
  }

  lemma OnlyHitHasNoneBehind(text: string, token: string, p: nat)
    requires token != [] && OnlyHit(text, token, p)
    ensures FirstHit(text, token, p) && !Occurs(text[p + |token|..], token)
  {
    var end := p + |token|;
    var rest := text[end..];
    forall q: nat | q <= |rest| ensures !OccursAt(rest, token, q) {
      var r: nat := q + end;
      assert !OccursAt(text, token, r);
      assert q + |token| <= |rest| ==> rest[q..q + |token|] == text[r..r + |token|];
    }
  }

  /** A replacement changes the only hit and nothing else. */
  lemma ReplaceOnlyHit(text: string, token: string, original: string, p: nat)
    requires token != [] && OnlyHit(text, token, p)
    ensures Replace(text, token, original) == text[..p] + original + text[p + |token|..]
  {
    OnlyHitHasNoneBehind(text, token, p);
    ReplaceFromFirst(text, token, original, p);
    ReplaceNothing(text[p + |token|..], token, original);
  }

  /** How a replacement changes the length, and that it changes a text that holds the token. */
  lemma {:induction false} ReplaceLength(text: string, token: string, original: string)
    requires token != []
    ensures |original| >= |token| ==> |Replace(text, token, original)| >= |text|
    ensures |original| <= |token| ==> |Replace(text, token, original)| <= |text|
    ensures Occurs(text, token) && |original| > |token| ==> |Replace(text, token, original)| > |text|
    ensures Occurs(text, token) && |original| < |token| ==> |Replace(text, token, original)| < |text|
    decreases |text|
  {
    if Occurs(text, token) {
      var q: nat :| q <= |text| && OccursAt(text, token, q);
      var p := FirstOf(text, token, q);
      ReplaceFromFirst(text, token, original, p);
      ReplaceLength(text[p + |token|..], token, original);
    } else {
      ReplaceNothing(text, token, original);
    }
  }

  lemma ReplaceMakesADifference(text: string, token: string, original: string)
    requires token != [] && Occurs(text, token) && original != token
    ensures Replace(text, token, original) != text
  {
    ReplaceLength(text, token, original);
    if |original| == |token| {
      var q: nat :| q <= |text| && OccursAt(text, token, q);
      var p := FirstOf(text, token, q);
      ReplaceFromFirst(text, token, original, p);
      var r := Replace(text, token, original);
      assert r[p..p + |token|] == original && text[p..p + |token|] == token;
    }
  }

  lemma {:induction false} ReplaceBySame(text: string, token: string)
    requires token != []
    ensures Replace(text, token, token) == text
    decreases |text|
  {
    if |text| >= |token| {
      if text[..|token|] == token {
        ReplaceBySame(text[|token|..], token);
        assert token + text[|token|..] == text;
      } else {
        ReplaceBySame(text[1..], token);
        assert [text[0]] + text[1..] == text;
      }
    }
  }

  /** Two strings of one length with the same period and the same beginning. */
  lemma {:induction false} PeriodDecides(x: string, y: string, d: nat, j: nat)
    requires |x| == |y| && 0 < d && j < |x|
    requires forall i :: 0 <= i < d && i < |x| ==> x[i] == y[i]
    requires forall i :: d <= i < |x| ==> x[i] == x[i - d] && y[i] == y[i - d]
    ensures x[j] == y[j]
    decreases j
  {
    if j >= d { PeriodDecides(x, y, d, j - d); }
  }

  lemma InsertedOccurs(before: string, span: Span, after: string, at: nat)
    requires Inserted(before, span, after, at)
    ensures OccursAt(after, span.token, at) && Occurs(after, span.token)
    ensures after[..at] == before[..at] && after[at + |span.token|..] == before[at + |span.original|..]
    ensures |before| == |after| + |span.original| - |span.token|
    ensures before == after[..at] + span.original + after[at + |span.token|..]
  {
    var rest := before[at + |span.original|..];
    assert after == (before[..at] + span.token) + rest;
    assert after[at..at + |span.token|] == span.token;
    assert at <= |after| && OccursAt(after, span.token, at);
    assert before == before[..at] + before[at..at + |span.original|] + rest;
  }

  lemma LettersAt(text: string, token: string, p: nat)
    requires OccursAt(text, token, p)
    ensures forall x :: p <= x < p + |token| ==> text[x] == token[x - p]
  {
    assert forall x :: p <= x < p + |token| ==> text[x] == text[p..p + |token|][x - p];
  }

  /** What lies from the first occurrence to the end of the one that was put in, when the two overlap. */
  lemma Overlap(after: string, token: string, p: nat, at: nat)
    requires OccursAt(after, token, p) && OccursAt(after, token, at) && p < at < p + |token|
    ensures var d := at - p;
            after[..at] == after[..p] + token[..d]
            && after[p + |token|..] == token[|token| - d..] + after[at + |token|..]
    ensures forall i :: at - p <= i < |token| ==> token[i] == token[i - (at - p)]
  {
    var d := at - p;
    LettersAt(after, token, p);
    LettersAt(after, token, at);
    assert after[p..at] == token[..d];
    assert after[..at] == after[..p] + after[p..at];
    assert after[p + |token|..at + |token|] == token[|token| - d..];
    assert after[p + |token|..] == after[p + |token|..at + |token|] + after[at + |token|..];
  }

  lemma AroundTheOverlap(before: string, span: Span, after: string, at: nat, p: nat)
    requires Inserted(before, span, after, at)
    requires OccursAt(after, span.token, p) && p < at < p + |span.token|
    ensures var t, d := span.token, at - p;
            && at + |t| <= |after|
            && before == after[..p] + t[..d] + span.original + after[at + |t|..]
            && after[p + |t|..] == t[|t| - d..] + after[at + |t|..]
  {
    InsertedOccurs(before, span, after, at);
    Overlap(after, span.token, p, at);
  }

  /** The original put at the overlapping occurrence gives the text before exactly when it reads on across it. */
  lemma AcrossTheOverlap(head: string, token: string, original: string, d: nat, tail: string)
    requires 0 < d < |token|
    ensures head + original + (token[|token| - d..] + tail) == head + token[..d] + original + tail
       <==> Straddles(token, original, d)
  {
    var first, last := token[..d], token[|token| - d..];
    Regrouped(head, original, last, tail);
    assert head + first + original + tail == head + (first + original) + tail;
    if head + (original + last) + tail == head + (first + original) + tail {
      Cancel(head, original + last, first + original, tail);
    }
  }

  lemma PutAtTheOverlap(before: string, span: Span, after: string, at: nat, p: nat)
    requires Inserted(before, span, after, at)
    requires p < at < p + |span.token| && OccursAt(after, span.token, p)
    ensures after[..p] + span.original + after[p + |span.token|..] == before
       <==> Straddles(span.token, span.original, at - p)
  {
    var t, o, d := span.token, span.original, at - p;
    AroundTheOverlap(before, span, after, at, p);
    var head, tail, last := after[..p], after[at + |t|..], t[|t| - d..];
    var rest := after[p + |t|..];
    assert rest == last + tail;
    AcrossTheOverlap(head, t, o, d, tail);
  }

  lemma StraddlingComesBack(before: string, span: Span, after: string, at: nat, p: nat)
    requires Inserted(before, span, after, at) && span.token != []
    requires p < at && OnlyHit(after, span.token, p) && Straddles(span.token, span.original, at - p)
    ensures Replace(after, span.token, span.original) == before
  {
    ReplaceOnlyHit(after, span.token, span.original, p);
    PutAtTheOverlap(before, span, after, at, p);
  }

  lemma UndoableComesBack(before: string, span: Span, after: string, at: nat)
    requires Inserted(before, span, after, at) && span.token != [] && Undoable(after, span, at)
    ensures Replace(after, span.token, span.original) == before
  {
    InsertedOccurs(before, span, after, at);
    if span.original == span.token {
      ReplaceBySame(after, span.token);
      assert after == after[..at] + after[at..at + |span.token|] + after[at + |span.token|..];
    } else if OnlyHit(after, span.token, at) {
      ReplaceOnlyHit(after, span.token, span.original, at);
    } else {
      var p: nat :| p < at && OnlyHit(after, span.token, p) && Straddles(span.token, span.original, at - p);
      StraddlingComesBack(before, span, after, at, p);
    }
  }

  /** If the text behind the first occurrence stays as it is, that occurrence is the only hit. */
  lemma FirstIsOnly(text: string, token: string, p: nat)
    requires token != [] && FirstHit(text, token, p) && !Occurs(text[p + |token|..], token)
    ensures OnlyHit(text, token, p)
  {
    var rest := text[p + |token|..];
    forall q: nat | q <= |text| && OccursAt(text, token, q) ensures p <= q < p + |token| {
      if q >= p + |token| {
        var r: nat := q - p - |token|;
        assert rest[r..r + |token|] == text[q..q + |token|];
        assert OccursAt(rest, token, r);
      }
    }
  }

  /** Cancelling what two equal texts share at both ends. */
  lemma Cancel(head: string, x: string, y: string, tail: string)
    requires head + x + tail == head + y + tail
    ensures x == y
  {
    var a, b := head + x + tail, head + y + tail;
    assert |x| == |y|;
    assert a[|head|..|head| + |x|] == x && b[|head|..|head| + |y|] == y;
  }

  /** With an original as long as the token, an overlapping first occurrence makes the two equal. */
  lemma SameLengthOverlap(before: string, span: Span, after: string, at: nat, p: nat, behind: string)
    requires Inserted(before, span, after, at) && |span.original| == |span.token|
    requires p < at < p + |span.token| && OccursAt(after, span.token, p)
    requires after[..p] + span.original + behind == before
    ensures span.original == span.token
  {
    var t, o, d := span.token, span.original, at - p;
    InsertedOccurs(before, span, after, at);
    Overlap(after, t, p, at);
    AroundTheOverlap(before, span, after, at, p);
    BothReadings(after[..p], t[..d], o, after[at + |t|..], behind);
    forall j | 0 <= j < |t| ensures o[j] == t[j] { PeriodDecides(o, t, d, j); }
  }

  /** What two readings of one text say about its middle. */
  lemma BothReadings(head: string, first: string, original: string, tail: string, behind: string)
    requires head + first + original + tail == head + original + behind && |first| < |original|
    ensures forall i :: 0 <= i < |first| ==> original[i] == first[i]
    ensures forall i :: |first| <= i < |original| ==> original[i] == original[i - |first|]
  {
    var whole, n := head + first + original + tail, |head|;
    assert forall i :: 0 <= i < |original| ==> (head + original + behind)[n + i] == original[i];
    assert forall i :: 0 <= i < |first| ==> whole[n + i] == first[i];
    forall i | |first| <= i < |original| ensures original[i] == original[i - |first|] {
      assert whole[n + i] == original[i - |first|];
    }
  }

  lemma NotBefore(before: string, span: Span, after: string, at: nat, p: nat, behind: string)
    requires Inserted(before, span, after, at) && |span.original| == |span.token|
    requires p + |span.token| <= at && OccursAt(after, span.token, p)
    requires after[..p] + span.original + behind == before
    ensures span.original == span.token
  {
    InsertedOccurs(before, span, after, at);
    assert before[p..p + |span.token|] == span.original;
    assert after[..at][p..p + |span.token|] == span.token && before[..at][p..p + |span.token|] == span.original;
  }

  lemma ComesBackOnlyIfUndoable(before: string, span: Span, after: string, at: nat)
    requires Inserted(before, span, after, at) && span.token != []
    requires Replace(after, span.token, span.original) == before && span.original != span.token
    ensures Undoable(after, span, at)
  {
    var t, o := span.token, span.original;
    InsertedOccurs(before, span, after, at);
    var p := FirstOf(after, t, at);
    ReplaceFromFirst(after, t, o, p);
    var rest := after[p + |t|..];
    var behind := Replace(rest, t, o);
    assert |behind| == |rest|;
    if |o| == |t| && p < at {
      if at < p + |t| { SameLengthOverlap(before, span, after, at, p, behind); }
      else { NotBefore(before, span, after, at, p, behind); }
    } else {
      if Occurs(rest, t) {
        ReplaceLength(rest, t, o);
        assert p == at && behind == rest by { assert (after[..at] + o + behind)[at + |o|..] == behind; }
        ReplaceMakesADifference(rest, t, o);
      }
      FirstIsOnly(after, t, p);
      if p < at {
        ReplaceNothing(rest, t, o);
        PutAtTheOverlap(before, span, after, at, p);
      }
    }
  }

  /** One step, exactly: taking the placeholder out undoes putting it in if and only if that is the one place that a
      replacement changes, or the original is the placeholder itself, or it reads on across an overlapping
      occurrence. */
  lemma StepComesBackExactlyWhen(before: string, span: Span, after: string, at: nat)
    requires Inserted(before, span, after, at) && span.token != []
    ensures Replace(after, span.token, span.original) == before <==> Undoable(after, span, at)
  {
    if Undoable(after, span, at) {
      UndoableComesBack(before, span, after, at);
    } else if Replace(after, span.token, span.original) == before {
      ComesBackOnlyIfUndoable(before, span, after, at);
    }
  }

  /** A second occurrence that overlaps the one put in does no harm: "1.2版" in front of the rest of a placeholder. */
  lemma OverlapDoesNoHarm()
    ensures var rest := "NGEPROTECTEDA";
            var span := Span(SpanToken(0), "1.2版");
            var before, after := "1.2版" + rest, SpanToken(0) + rest;
            && Inserted(before, span, after, 0) && span.original != span.token
            && OccursAt(after, span.token, 0) && OccursAt(after, span.token, 13)
            && Replace(after, span.token, span.original) == before
  {
    var rest, token := "NGEPROTECTEDA", SpanToken(0);
    Token();
    assert rest == token[1..] && token[13] == 'A';
    assert (token + rest)[13..27] == token;
    InFront(rest, token, "1.2版");
  }

  lemma InFront(rest: string, token: string, original: string)
    requires |rest| < |token|
    ensures var before, after := original + rest, token + rest;
            && Inserted(before, Span(token, original), after, 0) && OccursAt(after, token, 0)
            && Replace(after, token, original) == before
  {
    var before, after := original + rest, token + rest;
    assert before[..0] + token == token && before[0..|original|] == original && before[|original|..] == rest;
    assert after[0..|token|] == token && after[|token|..] == rest;
    ReplaceHere(after, token, original);
    assert after[..0] + original == original;
  }

  // ---------- whole runs ----------

  /** Where the k-th placeholder was put in, taking it out undoes that. */
  ghost predicate UndoableStep(text: string, p: Protection, k: nat) {
    k < |p.spans| && |p.spans| == |p.trace|
    && exists at: nat :: Inserted(Before(text, p, k), p.spans[k], p.trace[k], at)
                         && Undoable(p.trace[k], p.spans[k], at)
  }

  /** The k-th placeholder, taken out of the text just after it was put in, leaves the text just before. */
  ghost predicate ComesBack(text: string, p: Protection, k: nat)
    requires k < |p.spans| == |p.trace| && p.spans[k].token != []
  {
    Replace(p.trace[k], p.spans[k].token, p.spans[k].original) == Before(text, p, k)
  }

  lemma RunStepExactlyWhen(text: string, p: Protection, k: nat)
    requires Chain(text, p) && k < |p.spans|
    ensures p.spans[k].token != [] && (ComesBack(text, p, k) <==> UndoableStep(text, p, k))
  {
    assert Link(text, p, k);
    var at: nat :| Inserted(Before(text, p, k), p.spans[k], p.trace[k], at);
    StepComesBackExactlyWhen(Before(text, p, k), p.spans[k], p.trace[k], at);
    if UndoableStep(text, p, k) {
      var i: nat :| Inserted(Before(text, p, k), p.spans[k], p.trace[k], i) && Undoable(p.trace[k], p.spans[k], i);
      StepComesBackExactlyWhen(Before(text, p, k), p.spans[k], p.trace[k], i);
    }
  }

  ghost predicate AllUndoable(text: string, p: Protection) {
    forall k: nat :: k < |p.spans| ==> UndoableStep(text, p, k)
  }

  /** Each step comes back exactly when it is undoable. */
  ghost predicate StepsDecide(text: string, p: Protection) {
    && |p.spans| == |p.trace|
    && forall k: nat :: k < |p.spans| ==>
         p.spans[k].token == SpanToken(k) && (ComesBack(text, p, k) <==> UndoableStep(text, p, k))
  }

  lemma ChainStepsDecide(text: string, p: Protection)
    requires Chain(text, p)
    ensures StepsDecide(text, p)
  {
    ChainTokens(text, p);
    forall k: nat | k < |p.spans| ensures ComesBack(text, p, k) <==> UndoableStep(text, p, k) {
      RunStepExactlyWhen(text, p, k);
    }
  }

  lemma ChainComesBack(text: string, p: Protection)
    requires Chain(text, p) && StepsDecide(text, p) && AllUndoable(text, p)
    ensures Restored(p.text, p.spans) == text
  {
    var n := |p.spans|;
    forall k: nat | k < n ensures p.spans[k].token != [] && ComesBack(text, p, k) {
      assert UndoableStep(text, p, k);
    }
    RestoreChain(text, p, n);
    assert p.spans[..n] == p.spans;
  }

  /** In any run of any patterns each step comes back exactly when it is undoable, and a run of such steps comes back
      as a whole. */
  lemma RunComesBack(text: string, patterns: seq<Pattern>)
    requires AllFindSeparate(patterns)
    ensures var p := Protected(text, patterns);
            && StepsDecide(text, p) && (AllUndoable(text, p) ==> Restored(p.text, p.spans) == text)
  {
    var p := Protected(text, patterns);
    ProtectAllChains(text, Protection(text, [], []), patterns);
    ChainStepsDecide(text, p);
    if AllUndoable(text, p) { ChainComesBack(text, p); }
  }

  /** A text with one span comes back exactly when that span's step is undoable. */
  lemma OneSpanComesBackExactlyWhen(text: string, patterns: seq<Pattern>)
    requires AllFindSeparate(patterns) && |Protected(text, patterns).spans| == 1
    ensures var p := Protected(text, patterns);
            StepsDecide(text, p) && (Restored(p.text, p.spans) == text <==> UndoableStep(text, p, 0))
  {
    var p := Protected(text, patterns);
    ProtectAllChains(text, Protection(text, [], []), patterns);
    ChainStepsDecide(text, p);
    assert ComesBack(text, p, 0) <==> UndoableStep(text, p, 0);
    assert p.spans[..0] == [] && p.text == p.trace[0];
  }

  // ---------- what one pass finds ----------

  /** The text from `from` on is still the one that the pass began with. */
  ghost predicate Ahead(base: string, p: Protection, matches: seq<Match>, from: nat, shift: int) {
    && Separate(matches, |base|) && |base| == |p.text| - shift
    && from + shift >= 0 && (forall i :: 0 <= i < |matches| ==> from <= matches[i].start)
    && from <= |base| && p.text[from + shift..] == base[from..]
  }

  lemma AheadStep(base: string, p: Protection, matches: seq<Match>, from: nat, shift: int)
    requires Ahead(base, p, matches, from, shift) && matches != []
    ensures var m, token := matches[0], SpanToken(|p.spans|);
            var at, length := m.start + shift, m.end - m.start;
            && p.text[at..at + length] == base[m.start..m.end]
            && Ahead(base, Insert(p, at, length), matches[1..], m.end, shift + |token| - length)
  {
    var m, token := matches[0], SpanToken(|p.spans|);
    var at, length := m.start + shift, m.end - m.start;
    var rest := p.text[from + shift..];
    assert p.text[at..at + length] == rest[m.start - from..m.end - from] == base[from..][m.start - from..m.end - from];
    assert p.text[at + length..] == rest[m.end - from..] == base[from..][m.end - from..];
    var head := p.text[..at] + token;
    assert (head + p.text[at + length..])[|head|..] == p.text[at + length..];
  }

  /** The spans of `r` are those of `p` and then one for each match, in order. */
  ghost predicate Found(base: string, p: Protection, matches: seq<Match>, r: Protection) {
    && |r.spans| == |p.spans| + |matches|
    && (forall i :: 0 <= i < |p.spans| ==> r.spans[i] == p.spans[i])
    && (forall i: nat :: i < |matches| ==> FoundAt(base, |p.spans|, matches, r, i))
  }

  ghost predicate FoundAt(base: string, n: nat, matches: seq<Match>, r: Protection, i: nat)
    requires i < |matches| && n + i < |r.spans|
  {
    && matches[i].start <= matches[i].end <= |base|
    && r.spans[n + i] == Span(SpanToken(n + i), base[matches[i].start..matches[i].end])
  }

  lemma FoundStep(base: string, p: Protection, matches: seq<Match>, at: nat, length: nat, r: Protection)
    requires matches != [] && Separate(matches, |base|) && at + length <= |p.text|
    requires p.text[at..at + length] == base[matches[0].start..matches[0].end]
    requires Found(base, Insert(p, at, length), matches[1..], r)
    ensures Found(base, p, matches, r)
  {
    var n, q, rest := |p.spans|, Insert(p, at, length), matches[1..];
    forall i: nat | i < |matches| ensures FoundAt(base, n, matches, r, i) {
      if i > 0 {
        var j: nat := i - 1;
        assert FoundAt(base, n + 1, rest, r, j);
      } else {
        assert r.spans[n] == q.spans[n];
      }
    }
  }

  /** One pass protects what its pattern finds, one span for each match. */
  lemma {:induction false} PassFinds(base: string, p: Protection, matches: seq<Match>, from: nat, shift: int)
    requires Ahead(base, p, matches, from, shift)
    ensures Found(base, p, matches, Pass(p, matches, from, shift))
    decreases |matches|
  {
    if matches != [] {
      var m, token := matches[0], SpanToken(|p.spans|);
      var at, length := m.start + shift, m.end - m.start;
      AheadStep(base, p, matches, from, shift);
      PassUnfold(p, matches, from, shift);
      PassFinds(base, Insert(p, at, length), matches[1..], m.end, shift + |token| - length);
      FoundStep(base, p, matches, at, length, Pass(p, matches, from, shift));
    }
  }

  /** The two texts begin with the same `end` characters. */
  ghost predicate BeginAlike(a: string, b: string, end: nat) {
    end <= |a| && end <= |b| && a[..end] == b[..end]
  }

  lemma InsertKeepsBeginning(p: Protection, at: nat, length: nat, end: nat)
    requires end <= at && at + length <= |p.text|
    ensures BeginAlike(p.text, Insert(p, at, length).text, end)
  {
  }

  /** A pass leaves the text before its first match. */
  lemma {:induction false} PassKeepsBeginning(base: string, p: Protection, matches: seq<Match>, from: nat, shift: int,
                                              end: nat)
    requires Ahead(base, p, matches, from, shift) && end <= |p.text|
    requires matches != [] ==> end <= matches[0].start + shift
    ensures BeginAlike(p.text, Pass(p, matches, from, shift).text, end)
    decreases |matches|
  {
    if matches != [] {
      var m, token := matches[0], SpanToken(|p.spans|);
      var at, length := m.start + shift, m.end - m.start;
      var q, rest, next := Insert(p, at, length), matches[1..], shift + |token| - length;
      AheadStep(base, p, matches, from, shift);
      InsertKeepsBeginning(p, at, length, end);
      assert rest != [] ==> m.end <= rest[0].start;
      PassKeepsBeginning(base, q, rest, m.end, next, end);
      PassUnfold(p, matches, from, shift);
    }
  }

  // ---------- what restoring leaves alone ----------

  /** Replacing starts behind a beginning in which no placeholder begins. */
  lemma {:induction false} ReplaceKeepsBeginning(begin: string, text: string, token: string, original: string)
    requires token != [] && forall q: nat :: q < |begin| ==> !OccursAt(begin + text, token, q)
    ensures Replace(begin + text, token, original) == begin + Replace(text, token, original)
  {
    if begin == [] {
      assert begin + text == text;
    } else {
      var whole, rest := begin + text, begin[1..];
      assert whole[1..] == rest + text;
      forall q: nat | q < |rest| ensures !OccursAt(rest + text, token, q) {
        var r: nat := q + 1;
        assert !OccursAt(whole, token, r);
        assert r + |token| <= |whole| ==> whole[r..r + |token|] == (rest + text)[q..q + |token|];
      }
      ReplaceKeepsBeginning(rest, text, token, original);
      assert !OccursAt(whole, token, 0);
      ReplaceLater(whole, token, original);
      assert begin == [begin[0]] + rest && whole[0] == begin[0];
    }
  }

  lemma FirstLetter(text: string, token: string, q: nat)
    requires token != [] && OccursAt(text, token, q)
    ensures text[q] == token[0]
  {
    assert text[q..q + |token|][0] == text[q];
  }

  /** No placeholder begins where its first letter does not stand. */
  lemma NoFirstLetter(begin: string, text: string, token: string, original: string)
    requires token != [] && token[0] !in begin
    ensures Replace(begin + text, token, original) == begin + Replace(text, token, original)
  {
    var whole := begin + text;
    forall q: nat | q < |begin| ensures !OccursAt(whole, token, q) {
      if OccursAt(whole, token, q) { FirstLetter(whole, token, q); }
    }
    ReplaceKeepsBeginning(begin, text, token, original);
  }

  /** The dictionary of spans as protecting fills it. */
  ghost predicate Numbered(spans: seq<Span>) {
    forall i :: 0 <= i < |spans| ==> spans[i].token == SpanToken(i) && spans[i].token != [] && spans[i].token[0] == 'A'
  }

  lemma {:induction false} RestoreKeepsBeginning(begin: string, text: string, spans: seq<Span>)
    requires 'A' !in begin && begin <= text && Numbered(spans)
    ensures begin <= Restored(text, spans)
    decreases |spans|
  {
    if spans != [] {
      var last := spans[|spans| - 1];
      assert text == begin + text[|begin|..];
      NoFirstLetter(begin, text[|begin|..], last.token, last.original);
      RestoreKeepsBeginning(begin, Replace(text, last.token, last.original), spans[..|spans| - 1]);
    }
  }

  // ---------- two families of texts that do not come back ----------

  lemma OnePass(text: string, pattern: Pattern)
    requires AllFindSeparate([pattern])
    ensures FindsSeparateMatches(pattern)
    ensures Protected(text, [pattern]) == Pass(Protection(text, [], []), pattern(text), 0, 0)
  {
    var p := Protection(text, [], []);
    FirstAndOthers([pattern]);
    assert [pattern][1..] == [];
    assert ProtectAll(Applied(p, pattern), []) == Applied(p, pattern);
  }

  lemma SpansAreTheMatches(text: string, pattern: Pattern)
    requires AllFindSeparate([pattern])
    ensures |Protected(text, [pattern]).spans| == |pattern(text)|
  {
    OnePass(text, pattern);
    var matches := pattern(text);
    assert Separate(matches, |text|);
    PassFinds(text, Protection(text, [], []), matches, 0, 0);
  }

  /** What can be told before protecting: a text free of the marker's tail in which one pattern finds at most 26 matches
      comes back. */
  lemma FewMatchesComeBack(text: string, pattern: Pattern)
    requires AllFindSeparate([pattern]) && FreeOfTail(text) && |pattern(text)| <= 26
    ensures var p := Protected(text, [pattern]);
            |p.spans| == |pattern(text)| && Numbered(p.spans) && Restored(p.text, p.spans) == text
  {
    SpansAreTheMatches(text, pattern);
    PlainTextsComeBack(text, [pattern]);
    TokensNumber(Protected(text, [pattern]).spans);
  }

  lemma TokensNumber(spans: seq<Span>)
    requires forall i :: 0 <= i < |spans| ==> spans[i].token == SpanToken(i)
    ensures Numbered(spans)
  {
  }

  lemma Token()
    ensures SpanToken(0) == "ANGEPROTECTEDA" && SpanToken(26) == SpanToken(0) + "B"
  {
    assert Letters(1) == "B" && Letters(26) == ['A'] + Letters(1) && Letters(0) == "A";
  }

  lemma LostReplacement(token: string, between: string, original: string)
    requires token != [] && token[0] !in between
    ensures Replace(token + between + token, token, original) == original + between + original
  {
    var after, behind := token + between + token, between + token;
    assert after[..|token|] == token && after[|token|..] == behind;
    ReplaceHere(after, token, original);
    NoFirstLetter(between, token, token, original);
    ReplaceHere(token, token, original);
    assert after[..0] + original == original && token[..0] + original == original;
    assert token[|token|..] == [] && Replace([], token, original) == [] && original + [] == original;
    assert original + (between + original) == original + between + original;
  }

  lemma InsertAtTheEnd(head: string, span: string)
    ensures var after := head + SpanToken(0);
            Insert(Protection(head + span, [], []), |head|, |span|) ==
            Protection(after, [Span(SpanToken(0), span)], [after])
  {
    var text := head + span;
    assert text[..|head|] == head && text[|head|..|head| + |span|] == span && text[|head| + |span|..] == [];
    assert head + SpanToken(0) + [] == head + SpanToken(0);
  }

  /** Where the only span ends the text, so does its placeholder. */
  lemma SecondPlaceholder(head: string, span: string, pattern: Pattern)
    requires AllFindSeparate([pattern]) && pattern(head + span) == [Match(|head|, |head| + |span|)]
    ensures var after := head + SpanToken(0);
            Protected(head + span, [pattern]) == Protection(after, [Span(SpanToken(0), span)], [after])
  {
    var text := head + span;
    OnePass(text, pattern);
    InsertAtTheEnd(head, span);
    PassUnfold(Protection(text, [], []), [Match(|head|, |text|)], 0, 0);
  }

  /** A placeholder in the text: the span behind it gets the very same one, and both are turned into that span. */
  lemma PlaceholderInTheTextIsLost(between: string, span: string, pattern: Pattern)
    requires AllFindSeparate([pattern]) && 'A' !in between && span != SpanToken(0)
    requires var head := SpanToken(0) + between; pattern(head + span) == [Match(|head|, |head| + |span|)]
    ensures var text := SpanToken(0) + between + span;
            var p := Protected(text, [pattern]);
            && p.spans == [Span(SpanToken(0), span)]
            && Restored(p.text, p.spans) == span + between + span != text
  {
    SecondPlaceholder(SpanToken(0) + between, span, pattern);
    Token();
    LostText(SpanToken(0), between, span);
  }

  lemma LostText(token: string, between: string, span: string)
    requires token != [] && token[0] !in between && span != token
    ensures Restored(token + between + token, [Span(token, span)]) == span + between + span
    ensures span + between + span != token + between + span
  {
    LostReplacement(token, between, span);
    RestoreOne(token + between + token, Span(token, span));
    Differ(token, span, between, span);
  }

  lemma RestoreOne(text: string, span: Span)
    requires span.token != []
    ensures Restored(text, [span]) == Replace(text, span.token, span.original)
  {
    assert [span][..0] == [];
  }

  lemma Differ(x: string, y: string, between: string, tail: string)
    requires x != y
    ensures y + between + tail != x + between + tail
  {
    if y + between + tail == x + between + tail {
      var rest := between + tail;
      assert [] + x + rest == x + between + tail && [] + y + rest == y + between + tail;
      Cancel([], x, y, rest);
    }
  }

  /** The shortest such text with a name that the first pattern finds. */
  lemma CpuIsLost(pattern: Pattern)
    requires AllFindSeparate([pattern]) && pattern("ANGEPROTECTEDA CPU") == [Match(15, 18)]
    ensures var p := Protected("ANGEPROTECTEDA CPU", [pattern]);
            && p.spans == [Span("ANGEPROTECTEDA", "CPU")]
            && Restored(p.text, p.spans) == "CPU CPU"
  {
    Token();
    assert SpanToken(0) + " " + "CPU" == "ANGEPROTECTEDA CPU" && "CPU" + " " + "CPU" == "CPU CPU";
    PlaceholderInTheTextIsLost(" ", "CPU", pattern);
  }

  lemma TwoPasses(text: string, patterns: seq<Pattern>)
    requires AllFindSeparate(patterns) && |patterns| == 2
    ensures FindsSeparateMatches(patterns[0]) && FindsSeparateMatches(patterns[1])
    ensures Protected(text, patterns) == Applied(Applied(Protection(text, [], []), patterns[0]), patterns[1])
  {
    var p, rest := Protection(text, [], []), patterns[1..];
    FirstAndOthers(patterns);
    FirstAndOthers(rest);
    var q := Applied(p, patterns[0]);
    assert ProtectAll(p, patterns) == ProtectAll(q, rest);
    assert ProtectAll(q, rest) == ProtectAll(Applied(q, rest[0]), rest[1..]);
  }

  lemma InsertInFront(p: Protection, original: string, rest: string)
    requires p.text == original + rest
    ensures var token := SpanToken(|p.spans|);
            Insert(p, 0, |original|) ==
            Protection(token + rest, p.spans + [Span(token, original)], p.trace + [token + rest])
  {
    var text := p.text;
    assert text[..0] + SpanToken(|p.spans|) == SpanToken(|p.spans|);
    assert text[0..|original|] == original && text[|original|..] == rest;
  }

  lemma AppliedInFront(p: Protection, pattern: Pattern, token: string, original: string, rest: string)
    requires FindsSeparateMatches(pattern) && p.text == original + rest && pattern(p.text) == [Match(0, |original|)]
    requires token == SpanToken(|p.spans|)
    ensures Applied(p, pattern) == Protection(token + rest, p.spans + [Span(token, original)], p.trace + [token + rest])
  {
    PassUnfold(p, [Match(0, |original|)], 0, 0);
    InsertInFront(p, original, rest);
  }

  /** The text that holds the second placeholder twice, when it has been protected. */
  function Crossed(a: string, b: string, rest: string): Protection {
    Protection(b + rest, [Span(a, b), Span(b, a)], [a + rest, b + rest])
  }

  lemma CrossingPasses(a: string, b: string, rest: string, first: Pattern, second: Pattern)
    requires a == SpanToken(0) && b == SpanToken(1) && FindsSeparateMatches(first) && FindsSeparateMatches(second)
    requires first(b + rest) == [Match(0, |b|)] && second(a + rest) == [Match(0, |a|)]
    ensures Applied(Applied(Protection(b + rest, [], []), first), second) == Crossed(a, b, rest)
  {
    var p, q := Protection(b + rest, [], []), Protection(a + rest, [Span(a, b)], [a + rest]);
    AppliedInFront(p, first, a, b, rest);
    assert p.spans + [Span(a, b)] == q.spans && p.trace + [a + rest] == q.trace;
    AppliedInFront(q, second, b, a, rest);
    assert q.spans + [Span(b, a)] == [Span(a, b), Span(b, a)] && q.trace + [b + rest] == [a + rest, b + rest];
  }

  lemma RestoreTwo(text: string, first: Span, second: Span)
    requires first.token != [] && second.token != []
    ensures Restored(text, [first, second]) ==
            Replace(Replace(text, second.token, second.original), first.token, first.original)
  {
    assert [first, second][..1] == [first];
    RestoreOne(Replace(text, second.token, second.original), first);
  }

  /** The run comes back as a whole, although its second step does not. */
  ghost predicate RightThoughWrong(text: string, p: Protection) {
    && |p.spans| == 2 && p.spans[0].token != [] && p.spans[1].token != []
    && Restored(p.text, p.spans) == text && !UndoableStep(text, p, 1)
  }

  lemma FirstTokens(a: string, b: string)
    requires a == SpanToken(0) && b == SpanToken(1)
    ensures a != b && a != [] && b != [] && a[0] == b[0] == 'A'
  {
    SmallToken(0);
    SmallToken(1);
    assert MARKER[0] == 'A' && a[0] == MARKER[0] && b[0] == MARKER[0] && a[13] == 'A' && b[13] == 'B';
  }

  /** Two wrong steps can make a right run: "ANGEPROTECTEDB x ANGEPROTECTEDB" comes back, although taking out the second
      placeholder changes two places; taking out the first one changes them back. */
  lemma WrongStepsCanComeBack(a: string, b: string, between: string, patterns: seq<Pattern>)
    requires a == SpanToken(0) && b == SpanToken(1) && 'A' !in between && AllFindSeparate(patterns) && |patterns| == 2
    requires patterns[0](b + (between + b)) == [Match(0, |b|)] && patterns[1](a + (between + b)) == [Match(0, |a|)]
    ensures RightThoughWrong(b + (between + b), Protected(b + (between + b), patterns))
  {
    var text := b + (between + b);
    FirstTokens(a, b);
    TwoPasses(text, patterns);
    CrossingPasses(a, b, between + b, patterns[0], patterns[1]);
    RunComesBack(text, patterns);
    CrossedComesBack(a, b, between, Protected(text, patterns));
  }

  lemma ThereAndBack(a: string, b: string, between: string)
    requires a != [] && b != [] && a[0] !in between && b[0] !in between
    ensures Restored(b + (between + b), [Span(a, b), Span(b, a)]) == b + (between + b)
  {
    assert b + (between + b) == b + between + b;
    LostReplacement(b, between, a);
    LostReplacement(a, between, b);
    RestoreTwo(b + between + b, Span(a, b), Span(b, a));
  }

  lemma CrossedComesBack(a: string, b: string, between: string, p: Protection)
    requires a != b && a != [] && b != [] && a[0] !in between && b[0] !in between
    requires p == Crossed(a, b, between + b) && StepsDecide(b + (between + b), p)
    ensures RightThoughWrong(b + (between + b), p)
  {
    ThereAndBack(a, b, between);
    WrongStep(a, b, between);
    assert ComesBack(b + (between + b), p, 1) <==> UndoableStep(b + (between + b), p, 1);
  }

  lemma WrongStep(a: string, b: string, between: string)
    requires a != b && a != [] && b != [] && b[0] !in between
    ensures Replace(b + (between + b), b, a) != a + (between + b)
  {
    assert b + (between + b) == b + between + b && a + (between + b) == a + between + b;
    LostReplacement(b, between, a);
    if a + between + a == a + between + b {
      assert a + between + a + [] == a + between + b + [];
      Cancel(a + between, a, b, []);
    }
  }

  /** `count` times a version number, as " 1.3版". */
  function Versions(count: nat): (text: string)
    ensures |text| == 5 * count && forall c :: c in text ==> c in " 1.3版"
  {
    if count == 0 then [] else " 1.3版" + Versions(count - 1)
  }

  lemma {:induction false} VersionAt(count: nat, i: nat)
    requires i < count
    ensures Versions(count)[5 * i + 1..5 * i + 5] == "1.3版"
  {
    var text, rest := Versions(count), Versions(count - 1);
    if i == 0 {
      assert text[1..5] == "1.3版";
    } else {
      VersionAt(count - 1, i - 1);
      assert text[5..] == rest && text[5 * i + 1..5 * i + 5] == rest[5 * i - 4..5 * i];
    }
  }

  /** Version numbers, the first with a letter behind it. */
  function ManyVersions(count: nat): (text: string)
    ensures |text| == 5 + 5 * count && text[..5] == "1.2版B" && text[5..] == Versions(count)
    ensures 'N' !in text
  {
    "1.2版B" + Versions(count)
  }

  function ManyMatches(count: nat): (matches: seq<Match>)
    ensures |matches| == count + 1 && matches[0] == Match(0, 4)
    ensures forall i :: 1 <= i <= count ==> matches[i] == Match(5 * i + 1, 5 * i + 5)
    ensures Separate(matches, 5 + 5 * count)
  {
    seq(count + 1, (i: nat) => Match(if i == 0 then 0 else 5 * i + 1, if i == 0 then 4 else 5 * i + 5))
  }

  lemma ManyVersionsFree(count: nat)
    ensures FreeOfTail(ManyVersions(count))
  {
    var text := ManyVersions(count);
    forall q: nat | q <= |text| ensures !OccursAt(text, TAIL, q) {
      assert TAIL[0] == 'N';
      if q + |TAIL| <= |text| { assert text[q..q + |TAIL|][0] == text[q] && text[q] in text; }
    }
  }

  lemma ManySpans(count: nat, p: Protection, ms: seq<Match>)
    requires count >= 26 && p == Protection(ManyVersions(count), [], []) && ms == ManyMatches(count)
    ensures var r := Pass(p, ms, 0, 0);
            |r.spans| == count + 1 && Numbered(r.spans) && r.spans[26].original == "1.3版"
  {
    var text := p.text;
    assert Ahead(text, p, ms, 0, 0);
    PassFinds(text, p, ms, 0, 0);
    var r := Pass(p, ms, 0, 0);
    forall i: nat | i <= count
      ensures r.spans[i].token == SpanToken(i) && r.spans[i].token != [] && r.spans[i].token[0] == 'A'
    {
      assert FoundAt(text, 0, ms, r, i);
    }
    assert FoundAt(text, 0, ms, r, 26);
    VersionAt(count, 25);
    assert text[131..135] == text[5..][126..130];
  }

  lemma ManyBeginning(count: nat, p: Protection, ms: seq<Match>)
    requires count >= 26 && p == Protection(ManyVersions(count), [], []) && ms == ManyMatches(count)
    ensures SpanToken(26) + " " <= Pass(p, ms, 0, 0).text
  {
    var text, q, rest := p.text, Insert(p, 0, 4), ms[1..];
    assert Ahead(text, p, ms, 0, 0);
    AheadStep(text, p, ms, 0, 0);
    PassUnfold(p, ms, 0, 0);
    Token();
    assert text[4] == 'B' by { assert text[..5][4] == 'B'; }
    assert text[5] == ' ' by { assert text[5..][0] == Versions(count)[0]; }
    assert q.text[..16] == SpanToken(26) + " ";
    assert rest[0] == Match(6, 10);
    PassKeepsBeginning(text, q, rest, 4, 10, 16);
  }

  lemma {:induction false} LettersAreLetters(value: nat)
    ensures forall c :: c in Letters(value) ==> 'A' <= c <= 'Z'
  {
    if value / 26 > 0 { LettersAreLetters(value / 26); }
  }

  lemma NoSpace(k: nat)
    ensures forall i :: 0 <= i < |SpanToken(k)| ==> SpanToken(k)[i] != ' '
  {
    var token, letters := SpanToken(k), Letters(k);
    LettersAreLetters(k);
    forall i | 0 <= i < |token| ensures token[i] != ' ' {
      if i >= |MARKER| { assert token[i] == letters[i - |MARKER|] && letters[i - |MARKER|] in letters; }
    }
  }

  lemma BeginsEarlier(k: nat)
    requires SpanToken(k) <= SpanToken(26)
    ensures k <= 26
  {
    if SpanToken(k) == SpanToken(26) { TokensAreDistinct(k, 26); } else { LongerTokenComesLater(k, 26); }
  }

  /** Another placeholder that the text begins with is an earlier one. */
  lemma OnlyEarlierBegins(k: nat, whole: string)
    requires SpanToken(26) + " " <= whole && SpanToken(k) <= whole
    ensures k <= 26
  {
    var token, begin := SpanToken(k), SpanToken(26) + " ";
    NoSpace(k);
    assert forall i :: 0 <= i < |token| ==> token[i] == whole[i];
    assert forall i :: 0 <= i < |begin| ==> begin[i] == whole[i];
    Token();
    assert begin[15] == ' ' && |token| <= 15;
    assert forall i :: 0 <= i < |token| ==> token[i] == SpanToken(26)[i];
    BeginsEarlier(k);
  }

  /** A later placeholder does not begin where number 26 stands at the beginning. */
  lemma LaterPassesBy(k: nat, whole: string, q: nat)
    requires SpanToken(26) + " " <= whole && q < 16 && OccursAt(whole, SpanToken(k), q)
    ensures k <= 26
  {
    var token, begin := SpanToken(k), SpanToken(26) + " ";
    Token();
    LettersAt(whole, token, q);
    assert token[0] == 'A' && token[1] == 'N' && begin[q] == whole[q];
    assert q + 1 < 16 ==> whole[q + 1] == begin[q + 1];
    assert q == 0;
    OnlyEarlierBegins(k, whole);
  }

  /** Placeholder 26 is taken for the text at the beginning, which then stays. */
  lemma {:induction false} LostAtTheBeginning(text: string, spans: seq<Span>)
    requires |spans| >= 27 && Numbered(spans)
    requires spans[26].original == "1.3版" && SpanToken(26) + " " <= text
    ensures "1.3版" <= Restored(text, spans)
    decreases |spans|
  {
    var last, rest := spans[|spans| - 1], spans[..|spans| - 1];
    var next := Replace(text, last.token, last.original);
    if |spans| == 27 {
      assert OccursAt(text, last.token, 0);
      ReplaceHere(text, last.token, last.original);
      assert text[..0] + last.original == last.original;
      RestoreKeepsBeginning(last.original, next, rest);
    } else {
      var begin, tail := SpanToken(26) + " ", text[16..];
      Token();
      assert text == begin + tail;
      forall q: nat | q < 16 ensures !OccursAt(text, last.token, q) {
        if OccursAt(text, last.token, q) { LaterPassesBy(|spans| - 1, text, q); }
      }
      ReplaceKeepsBeginning(begin, tail, last.token, last.original);
      LostAtTheBeginning(next, rest);
    }
  }

  ghost predicate LostMany(p: Protection, count: nat) {
    |p.spans| == count + 1 && Numbered(p.spans) && "1.3版" <= Restored(p.text, p.spans)
  }

  lemma ManyLost(count: nat, text: string, ms: seq<Match>)
    requires count >= 26 && text == ManyVersions(count) && ms == ManyMatches(count)
    ensures LostMany(Pass(Protection(text, [], []), ms, 0, 0), count)
  {
    var p := Protection(text, [], []);
    ManySpans(count, p, ms);
    ManyBeginning(count, p, ms);
    var r := Pass(p, ms, 0, 0);
    LostAtTheBeginning(r.text, r.spans);
  }

  lemma OtherBeginning(count: nat, restored: string)
    requires "1.3版" <= restored
    ensures restored != ManyVersions(count)
  {
    assert ManyVersions(count)[..5][2] == '2' && restored[2] == '3';
  }

  /** At least twenty-seven spans and no placeholder in the text: the one numbered 26 reads as the first and the letter
      behind it. */
  lemma TwentySevenSpansAreLost(count: nat, text: string, pattern: Pattern)
    requires count >= 26 && text == ManyVersions(count)
    requires AllFindSeparate([pattern]) && pattern(text) == ManyMatches(count)
    ensures FreeOfTail(text)
    ensures var p := Protected(text, [pattern]);
            LostMany(p, count) && Restored(p.text, p.spans) != text
  {
    ManyVersionsFree(count);
    OnePass(text, pattern);
    ManyLost(count, text, ManyMatches(count));
    var p := Protected(text, [pattern]);
    assert LostMany(p, count);
    OtherBeginning(count, Restored(p.text, p.spans));
  }
}

/** Placeholders for technical spans: `protect_spans` and `restore_spans`.

    A pattern is any function from a text to the non-overlapping matches it finds there, left to right. */
module SpanProtection {

  datatype Match = Match(start: nat, end: nat)

  type Pattern = string -> seq<Match>

  /** An entry of the dictionary of spans, which keeps the order of insertion. */
  datatype Span = Span(token: string, original: string)

  const MARKER := "ANGEPROTECTED"

  /** The letters of an index, least significant first. */
  function Letters(value: nat): (letters: string)
    ensures letters != []
  {
    [('A' as int + value % 26) as char] + (if value / 26 == 0 then [] else Letters(value / 26))
  }

  function SpanToken(index: nat): string {
    MARKER + Letters(index)
  }

  ghost predicate FindsSeparateMatches(pattern: Pattern) {
    forall text :: Separate(pattern(text), |text|)
  }

  ghost predicate AllFindSeparate(patterns: seq<Pattern>) {
    forall i :: 0 <= i < |patterns| ==> FindsSeparateMatches(patterns[i])
  }

  lemma FirstAndOthers(patterns: seq<Pattern>)
    requires patterns != [] && AllFindSeparate(patterns)
    ensures FindsSeparateMatches(patterns[0]) && AllFindSeparate(patterns[1..])
  {
    forall i | 0 <= i < |patterns[1..]| ensures FindsSeparateMatches(patterns[1..][i]) {
      assert FindsSeparateMatches(patterns[i + 1]);
    }
  }

  predicate Separate(matches: seq<Match>, length: int) {
    && (forall i :: 0 <= i < |matches| ==> matches[i].start <= matches[i].end <= length)
    && (forall i, j :: 0 <= i < j < |matches| ==> matches[i].end <= matches[j].start)
  }

  // ---------- str.replace ----------

  predicate OccursAt(text: string, token: string, p: nat) {
    p + |token| <= |text| && text[p..p + |token|] == token
  }

  predicate OccursOnlyAt(text: string, token: string, p: nat) {
    OccursAt(text, token, p) && forall q: nat :: q <= |text| && OccursAt(text, token, q) ==> q == p
  }

  /** Every occurrence that does not overlap one replaced before, left to right. */
  function Replace(text: string, token: string, original: string): string
    requires token != []
    decreases |text|
  {
    if |text| < |token| then text
    else if text[..|token|] == token then original + Replace(text[|token|..], token, original)
    else [text[0]] + Replace(text[1..], token, original)
  }

  // ---------- what the two operations compute ----------

  /** A text in the course of protection; `trace` holds the text just after each placeholder was put in. */
  datatype Protection = Protection(text: string, spans: seq<Span>, trace: seq<string>)

  /** The next placeholder takes the place of `length` characters. */
  function Insert(p: Protection, at: nat, length: nat): Protection
    requires at + length <= |p.text|
  {
    var token := SpanToken(|p.spans|);
    var text := p.text[..at] + token + p.text[at + length..];
    Protection(text, p.spans + [Span(token, p.text[at..at + length])], p.trace + [text])
  }

  /** One `pattern.sub`: the matches are places in the text the pass began with, `shift` behind those of now. */
  function Pass(p: Protection, matches: seq<Match>, from: nat, shift: int): Protection
    requires Separate(matches, |p.text| - shift)
    requires from + shift >= 0 && (forall i :: 0 <= i < |matches| ==> from <= matches[i].start)
    decreases |matches|
  {
    if matches == [] then p
    else
      var m := matches[0];
      var length := m.end - m.start;
      var q := Insert(p, m.start + shift, length);
      Pass(q, matches[1..], m.end, shift + |SpanToken(|p.spans|)| - length)
  }

  function Applied(p: Protection, pattern: Pattern): Protection
    requires FindsSeparateMatches(pattern)
  {
    Pass(p, pattern(p.text), 0, 0)
  }

  function ProtectAll(p: Protection, patterns: seq<Pattern>): Protection
    requires AllFindSeparate(patterns)
    decreases |patterns|
  {
    if patterns == [] then p
    else
      FirstAndOthers(patterns);
      ProtectAll(Applied(p, patterns[0]), patterns[1..])
  }

  function Protected(text: string, patterns: seq<Pattern>): Protection
    requires AllFindSeparate(patterns)
  {
    ProtectAll(Protection(text, [], []), patterns)
  }

  /** `restore_spans`: the last placeholder put in is taken out first. */
  function Restored(text: string, spans: seq<Span>): string
    requires forall i :: 0 <= i < |spans| ==> spans[i].token != []
    decreases |spans|
  {
    if spans == [] then text
    else
      var last := spans[|spans| - 1];
      Restored(Replace(text, last.token, last.original), spans[..|spans| - 1])
  }

  // ---------- tokens ----------

  lemma {:induction false} LettersInjective(i: nat, j: nat)
    requires Letters(i) == Letters(j)
    ensures i == j
  {
    var a, b := Letters(i), Letters(j);
    assert a[0] as int - 'A' as int == i % 26 && b[0] as int - 'A' as int == j % 26;
    if i / 26 == 0 || j / 26 == 0 {
      assert |a| == 1 <==> i / 26 == 0;
      assert |b| == 1 <==> j / 26 == 0;
    } else {
      assert a[1..] == Letters(i / 26) && b[1..] == Letters(j / 26);
      LettersInjective(i / 26, j / 26);
    }
  }

  lemma {:induction false} LettersPrefix(i: nat, j: nat)
    requires Letters(i) <= Letters(j)
    ensures i <= j
  {
    var a, b := Letters(i), Letters(j);
    assert a[0] == b[0];
    assert a[0] as int - 'A' as int == i % 26 && b[0] as int - 'A' as int == j % 26;
    if i / 26 > 0 {
      assert |a| > 1;
      assert j / 26 > 0;
      assert a[1..] == Letters(i / 26) && b[1..] == Letters(j / 26);
      LettersPrefix(i / 26, j / 26);
    }
  }

  /** Two indices never share a token, so filling the dictionary never overwrites a span. */
  lemma TokensAreDistinct(i: nat, j: nat)
    requires SpanToken(i) == SpanToken(j)
    ensures i == j
  {
    assert SpanToken(i)[|MARKER|..] == Letters(i) && SpanToken(j)[|MARKER|..] == Letters(j);
    LettersInjective(i, j);
  }

  /** If one token begins another, the longer one has the higher index. */
  lemma LongerTokenComesLater(i: nat, j: nat)
    requires SpanToken(i) < SpanToken(j)
    ensures i < j
  {
    var a, b := SpanToken(i), SpanToken(j);
    assert a[|MARKER|..] == Letters(i) && b[|MARKER|..] == Letters(j);
    assert forall k :: 0 <= k < |a| ==> a[k] == b[k];
    assert Letters(i) == b[|MARKER|..|a|];
    LettersPrefix(i, j);
  }

  // ---------- undoing one replacement ----------

  lemma {:induction false} ReplaceNothing(text: string, token: string, original: string)
    requires token != [] && forall q: nat :: q <= |text| ==> !OccursAt(text, token, q)
    ensures Replace(text, token, original) == text
    decreases |text|
  {
    if |text| >= |token| {
      assert !OccursAt(text, token, 0);
      forall q: nat | q <= |text[1..]| ensures !OccursAt(text[1..], token, q) {
        assert !OccursAt(text, token, q + 1);
        assert q + |token| <= |text[1..]| ==> text[1..][q..q + |token|] == text[q + 1..q + 1 + |token|];
      }
      ReplaceNothing(text[1..], token, original);
    }
  }

  /** A placeholder that occurs once is replaced there and nowhere else. */
  lemma {:induction false} ReplaceOnce(text: string, token: string, original: string, p: nat)
    requires token != [] && OccursOnlyAt(text, token, p)
    ensures Replace(text, token, original) == text[..p] + original + text[p + |token|..]
    decreases |text|
  {
    if p == 0 {
      NoneBehind(text, token);
      ReplaceNothing(text[|token|..], token, original);
      assert text[..0] + original == original;
    } else {
      assert !OccursAt(text, token, 0);
      var rest := text[1..];
      OneFurtherOn(text, token, p);
      ReplaceOnce(rest, token, original, p - 1);
      var tail := text[p + |token|..];
      assert rest[p - 1 + |token|..] == tail;
      assert text[..p] == [text[0]] + rest[..p - 1];
      assert [text[0]] + (rest[..p - 1] + original + tail) == [text[0]] + rest[..p - 1] + original + tail;
    }
  }

  lemma NoneBehind(text: string, token: string)
    requires token != [] && OccursOnlyAt(text, token, 0)
    ensures forall q: nat :: q <= |text| - |token| ==> !OccursAt(text[|token|..], token, q)
  {
    var rest := text[|token|..];
    forall q: nat | q <= |text| - |token| ensures !OccursAt(rest, token, q) {
      var r: nat := q + |token|;
      assert !OccursAt(text, token, r);
      if r <= |rest| { assert rest[q..r] == text[r..r + |token|]; }
    }
  }

  lemma OneFurtherOn(text: string, token: string, p: nat)
    requires token != [] && p > 0 && OccursOnlyAt(text, token, p)
    ensures OccursOnlyAt(text[1..], token, p - 1)
  {
    var rest := text[1..];
    assert rest[p - 1..p - 1 + |token|] == text[p..p + |token|];
    forall q: nat | q <= |rest| && OccursAt(rest, token, q) ensures q == p - 1 {
      assert rest[q..q + |token|] == text[q + 1..q + 1 + |token|];
      assert OccursAt(text, token, q + 1);
    }
  }

  // ---------- the round trip ----------

  function Before(text: string, p: Protection, k: nat): string
    requires k <= |p.trace|
  {
    if k == 0 then text else p.trace[k - 1]
  }

  /** The k-th placeholder stands where its span stood in the text before. */
  ghost predicate Inserted(before: string, span: Span, after: string, at: nat) {
    && at + |span.original| <= |before| && before[at..at + |span.original|] == span.original
    && after == before[..at] + span.token + before[at + |span.original|..]
  }

  ghost predicate Link(text: string, p: Protection, k: nat) {
    k < |p.spans| && |p.spans| == |p.trace| && p.spans[k].token == SpanToken(k)
    && exists at: nat :: Inserted(Before(text, p, k), p.spans[k], p.trace[k], at)
  }

  /** The texts from the first to the present one, each one placeholder further. */
  ghost predicate Chain(text: string, p: Protection) {
    && |p.spans| == |p.trace| && p.text == Before(text, p, |p.trace|)
    && forall k: nat :: k < |p.spans| ==> Link(text, p, k)
  }

  lemma InsertChains(text: string, p: Protection, at: nat, length: nat)
    requires Chain(text, p) && at + length <= |p.text|
    ensures Chain(text, Insert(p, at, length))
  {
    var q := Insert(p, at, length);
    forall k: nat | k < |q.spans| ensures Link(text, q, k) {
      if k < |p.spans| {
        assert Link(text, p, k);
        var i: nat :| Inserted(Before(text, p, k), p.spans[k], p.trace[k], i);
        assert Inserted(Before(text, q, k), q.spans[k], q.trace[k], i);
      } else {
        assert Inserted(Before(text, q, k), q.spans[k], q.trace[k], at);
      }
    }
  }

  lemma {:induction false} PassChains(text: string, p: Protection, matches: seq<Match>, from: nat, shift: int)
    requires Chain(text, p)
    requires Separate(matches, |p.text| - shift)
    requires from + shift >= 0 && (forall i :: 0 <= i < |matches| ==> from <= matches[i].start)
    ensures Chain(text, Pass(p, matches, from, shift))
    decreases |matches|
  {
    if matches != [] {
      var m := matches[0];
      InsertChains(text, p, m.start + shift, m.end - m.start);
      var q := Insert(p, m.start + shift, m.end - m.start);
      PassChains(text, q, matches[1..], m.end, shift + |SpanToken(|p.spans|)| - (m.end - m.start));
    }
  }

  lemma {:induction false} ProtectAllChains(text: string, p: Protection, patterns: seq<Pattern>)
    requires Chain(text, p) && AllFindSeparate(patterns)
    ensures Chain(text, ProtectAll(p, patterns))
    decreases |patterns|
  {
    if patterns != [] {
      FirstAndOthers(patterns);
      PassChains(text, p, patterns[0](p.text), 0, 0);
      ProtectAllChains(text, Applied(p, patterns[0]), patterns[1..]);
    }
  }

  ghost predicate OccursOnce(text: string, token: string) {
    exists at: nat :: OccursOnlyAt(text, token, at)
  }

  /** Each placeholder occurs exactly once in the text just after it was put in. */
  ghost predicate PlaceholdersUnique(p: Protection) {
    |p.spans| == |p.trace| && forall k :: 0 <= k < |p.spans| ==> OccursOnce(p.trace[k], p.spans[k].token)
  }

  lemma UndoneAt(before: string, span: Span, after: string, at: nat)
    requires Inserted(before, span, after, at) && span.token != [] && OccursOnlyAt(after, span.token, at)
    ensures Replace(after, span.token, span.original) == before
  {
    ReplaceOnce(after, span.token, span.original, at);
    var rest := before[at + |span.original|..];
    assert after == (before[..at] + span.token) + rest;
    assert after[at + |span.token|..] == rest;
    assert after[..at] == before[..at];
    assert before == before[..at] + before[at..at + |span.original|] + rest;
  }

  lemma UndoOne(before: string, span: Span, after: string)
    requires exists at: nat :: Inserted(before, span, after, at)
    requires span.token != [] && OccursOnce(after, span.token)
    ensures Replace(after, span.token, span.original) == before
  {
    var at: nat :| Inserted(before, span, after, at);
    var p: nat :| OccursOnlyAt(after, span.token, p);
    assert OccursAt(after, span.token, at);
    UndoneAt(before, span, after, at);
  }

  lemma StepUndone(text: string, p: Protection, k: nat)
    requires Chain(text, p) && PlaceholdersUnique(p) && k < |p.spans|
    ensures p.spans[k].token != []
    ensures Replace(p.trace[k], p.spans[k].token, p.spans[k].original) == Before(text, p, k)
  {
    assert Link(text, p, k);
    UndoOne(Before(text, p, k), p.spans[k], p.trace[k]);
  }

  lemma {:induction false} RestoreChain(text: string, p: Protection, k: nat)
    requires |p.trace| == |p.spans| && k <= |p.spans|
    requires forall i :: 0 <= i < |p.spans| ==> p.spans[i].token != []
    requires forall i: nat :: i < |p.spans| ==>
               Replace(p.trace[i], p.spans[i].token, p.spans[i].original) == Before(text, p, i)
    ensures Restored(Before(text, p, k), p.spans[..k]) == text
  {
    if k > 0 {
      var spans := p.spans[..k];
      assert spans[..k - 1] == p.spans[..k - 1];
      RestoreChain(text, p, k - 1);
    }
  }

  lemma ChainTokens(text: string, p: Protection)
    requires Chain(text, p)
    ensures forall i :: 0 <= i < |p.spans| ==> p.spans[i].token == SpanToken(i)
  {
    forall i | 0 <= i < |p.spans| ensures p.spans[i].token == SpanToken(i) {
      assert Link(text, p, i);
    }
  }

  /** Restoring gives the text back, for any patterns in any number of passes, including matches that swallow or cut
      earlier placeholders, as long as each placeholder was unique when it was put in. */
  lemma RestoreUndoesProtect(text: string, patterns: seq<Pattern>)
    requires AllFindSeparate(patterns)
    requires PlaceholdersUnique(Protected(text, patterns))
    ensures var p := Protected(text, patterns);
            && (forall i :: 0 <= i < |p.spans| ==> p.spans[i].token == SpanToken(i))
            && Restored(p.text, p.spans) == text
  {
    var p := Protected(text, patterns);
    ProtectAllChains(text, Protection(text, [], []), patterns);
    ChainTokens(text, p);
    forall i: nat | i < |p.spans|
      ensures Replace(p.trace[i], p.spans[i].token, p.spans[i].original) == Before(text, p, i)
    {
      StepUndone(text, p, i);
    }
    RestoreChain(text, p, |p.spans|);
    assert p.spans[..|p.spans|] == p.spans;
  }

  // ---------- when placeholders are unique ----------

  /** The marker without its first letter. */
  const TAIL := "NGEPROTECTED"

  ghost predicate FreeOfTail(text: string) {
    forall q: nat :: q <= |text| ==> !OccursAt(text, TAIL, q)
  }

  ghost predicate MarkedAt(text: string, count: nat, q: nat) {
    OccursAt(text, MARKER, q) ==>
      q + 13 < |text| && 0 <= text[q + 13] as int - 'A' as int < count
  }

  /** Every marker in the text is followed by the letter of one of the first `count` placeholders. */
  ghost predicate MarkersAreTokens(text: string, count: nat) {
    forall q: nat :: q <= |text| ==> MarkedAt(text, count, q)
  }

  lemma MarkerLetters(text: string, q: nat)
    requires OccursAt(text, MARKER, q)
    ensures text[q] == 'A' && forall x :: q < x < q + 13 ==> text[x] != 'A'
    ensures OccursAt(text, TAIL, q + 1)
  {
    var m := text[q..q + 13];
    assert forall x :: q <= x < q + 13 ==> text[x] == m[x - q];
    assert text[q + 1..q + 13] == m[1..];
  }

  lemma SmallToken(k: nat)
    requires k < 26
    ensures SpanToken(k) == MARKER + [('A' as int + k) as char]
  {
  }

  lemma MarkerAtLastLetter(pre: string, post: string, k: nat)
    requires k < 26 && OccursAt(pre + SpanToken(k) + post, MARKER, |pre| + 13)
    ensures k == 0 && OccursAt(post, TAIL, 0)
  {
    var text := pre + SpanToken(k) + post;
    SmallToken(k);
    MarkerLetters(text, |pre| + 13);
    assert text[|pre| + 13] == ('A' as int + k) as char;
    assert post[0..12] == text[|pre| + 14..|pre| + 26];
  }

  /** Where a marker can occur after an insertion: inside what was there before, or as the new token itself. */
  lemma MarkerPlaces(pre: string, post: string, k: nat, q: nat)
    requires k < 26 && (k == 0 ==> FreeOfTail(post))
    requires OccursAt(pre + SpanToken(k) + post, MARKER, q)
    ensures q + 13 <= |pre| || q == |pre| || q >= |pre| + 14
  {
    var text := pre + SpanToken(k) + post;
    SmallToken(k);
    MarkerLetters(text, q);
    assert text[|pre|] == 'A';
    assert forall j :: 0 <= j < 13 ==> SpanToken(k)[j] == MARKER[j];
    assert forall x :: |pre| < x < |pre| + 13 ==> text[x] == SpanToken(k)[x - |pre|] && MARKER[x - |pre|] != 'A';
    if q == |pre| + 13 {
      MarkerAtLastLetter(pre, post, k);
    }
  }

  lemma PartFreeOfTail(pre: string, mid: string, post: string)
    requires FreeOfTail(pre + mid + post)
    ensures FreeOfTail(post)
  {
    var text := pre + mid + post;
    forall q: nat | q <= |post| ensures !OccursAt(post, TAIL, q) {
      var r: nat := |pre| + |mid| + q;
      assert !OccursAt(text, TAIL, r);
      assert q + 12 <= |post| ==> post[q..q + 12] == text[r..r + 12];
    }
  }

  lemma NoTailNoMarker(text: string)
    requires FreeOfTail(text)
    ensures MarkersAreTokens(text, 0)
  {
    forall q: nat | q <= |text| ensures MarkedAt(text, 0, q) {
      if OccursAt(text, MARKER, q) { MarkerLetters(text, q); }
    }
  }

  /** The step of the invariant: the new token is unique, and its marker is followed by its letter. */
  lemma InsertKeepsMarkers(pre: string, mid: string, post: string, k: nat)
    requires k < 26 && MarkersAreTokens(pre + mid + post, k) && (k == 0 ==> FreeOfTail(pre + mid + post))
    ensures MarkersAreTokens(pre + SpanToken(k) + post, k + 1)
    ensures OccursOnlyAt(pre + SpanToken(k) + post, SpanToken(k), |pre|)
  {
    var text := pre + SpanToken(k) + post;
    SmallToken(k);
    if k == 0 { PartFreeOfTail(pre, mid, post); }
    assert text[|pre|..|pre| + 14] == SpanToken(k);
    var n := k + 1;
    forall q: nat | q <= |text| ensures MarkedAt(text, n, q) {
      if OccursAt(text, MARKER, q) {
        MarkerPlaces(pre, post, k, q);
        OldMarker(pre, mid, post, k, q);
      }
    }
    forall q: nat | q <= |text| && OccursAt(text, SpanToken(k), q) ensures q == |pre| {
      assert text[q..q + 13] == text[q..q + 14][..13];
      assert text[q + 13] == text[q..q + 14][13];
      MarkerPlaces(pre, post, k, q);
      OldMarker(pre, mid, post, k, q);
    }
  }

  /** A marker that was there before is still followed by an older letter, or now by the new token's first one. */
  lemma OldMarker(pre: string, mid: string, post: string, k: nat, q: nat)
    requires k < 26 && MarkersAreTokens(pre + mid + post, k)
    requires OccursAt(pre + SpanToken(k) + post, MARKER, q)
    requires q + 13 <= |pre| || q == |pre| || q >= |pre| + 14
    ensures var text := pre + SpanToken(k) + post;
            && q + 13 < |text|
            && (q == |pre| ==> text[q + 13] as int - 'A' as int == k)
            && (q != |pre| ==>
                  k > 0 && (text[q + 13] as int - 'A' as int == 0 || 0 <= text[q + 13] as int - 'A' as int < k))
  {
    var old', text := pre + mid + post, pre + SpanToken(k) + post;
    SmallToken(k);
    if q + 13 <= |pre| {
      assert old'[q..q + 13] == text[q..q + 13];
      assert MarkedAt(old', k, q);
    } else if q >= |pre| + 14 {
      var r: nat := q - 14 + |mid|;
      assert old'[r..r + 13] == text[q..q + 13];
      assert MarkedAt(old', k, r);
    }
  }

  /** All placeholders so far were unique, and every marker in the present text belongs to one of them. */
  ghost predicate Marked(text: string, p: Protection) {
    && |p.spans| == |p.trace|
    && (|p.spans| <= 26 ==>
          MarkersAreTokens(p.text, |p.spans|) && PlaceholdersUnique(p) && (p.spans == [] ==> FreeOfTail(p.text)))
  }

  lemma InsertMarks(text: string, p: Protection, at: nat, length: nat)
    requires Marked(text, p) && at + length <= |p.text|
    requires forall i :: 0 <= i < |p.spans| ==> p.spans[i].token == SpanToken(i)
    ensures Marked(text, Insert(p, at, length))
  {
    var q, k := Insert(p, at, length), |p.spans|;
    if k < 26 {
      var pre, mid, post := p.text[..at], p.text[at..at + length], p.text[at + length..];
      assert p.text == pre + mid + post;
      InsertKeepsMarkers(pre, mid, post, k);
      forall i | 0 <= i < |q.spans| ensures OccursOnce(q.trace[i], q.spans[i].token) {
        if i == k {
          assert OccursOnlyAt(q.trace[i], q.spans[i].token, |pre|);
        } else {
          assert q.trace[i] == p.trace[i] && q.spans[i] == p.spans[i];
        }
      }
    }
  }

  lemma {:induction false} PassMarks(text: string, p: Protection, matches: seq<Match>, from: nat, shift: int)
    requires Marked(text, p) && Chain(text, p)
    requires Separate(matches, |p.text| - shift)
    requires from + shift >= 0 && (forall i :: 0 <= i < |matches| ==> from <= matches[i].start)
    ensures Marked(text, Pass(p, matches, from, shift))
    decreases |matches|
  {
    if matches != [] {
      var m := matches[0];
      ChainTokens(text, p);
      InsertMarks(text, p, m.start + shift, m.end - m.start);
      InsertChains(text, p, m.start + shift, m.end - m.start);
      var q := Insert(p, m.start + shift, m.end - m.start);
      PassMarks(text, q, matches[1..], m.end, shift + |SpanToken(|p.spans|)| - (m.end - m.start));
    }
  }

  ghost predicate Good(text: string, p: Protection) {
    Marked(text, p) && Chain(text, p)
  }

  lemma AppliedGood(text: string, p: Protection, pattern: Pattern)
    requires Good(text, p) && FindsSeparateMatches(pattern)
    ensures Good(text, Applied(p, pattern))
  {
    PassMarks(text, p, pattern(p.text), 0, 0);
    PassChains(text, p, pattern(p.text), 0, 0);
  }

  lemma {:induction false} ProtectAllGood(text: string, p: Protection, patterns: seq<Pattern>)
    requires Good(text, p) && AllFindSeparate(patterns)
    ensures Good(text, ProtectAll(p, patterns))
    decreases |patterns|
  {
    if patterns != [] {
      FirstAndOthers(patterns);
      var rest := patterns[1..];
      var q := Applied(p, patterns[0]);
      AppliedGood(text, p, patterns[0]);
      ProtectAllGood(text, q, rest);
      assert ProtectAll(p, patterns) == ProtectAll(q, rest);
    }
  }

  /** A text without the tail of the marker, of which at most 26 spans are protected, always comes back. */
  lemma PlainTextsComeBack(text: string, patterns: seq<Pattern>)
    requires AllFindSeparate(patterns)
    requires FreeOfTail(text) && |Protected(text, patterns).spans| <= 26
    ensures var p := Protected(text, patterns);
            && (forall i :: 0 <= i < |p.spans| ==> p.spans[i].token == SpanToken(i))
            && Restored(p.text, p.spans) == text
  {
    NoTailNoMarker(text);
    ProtectAllGood(text, Protection(text, [], []), patterns);
    RestoreUndoesProtect(text, patterns);
  }

  // ---------- the operations as they run ----------

  /** Copying up to the next match and writing a token is an insertion into the text that is still to be finished. */
  lemma CopyIsInsert(out: string, text: string, cursor: nat, m: Match, spans: seq<Span>, trace: seq<string>)
    requires cursor <= m.start <= m.end <= |text|
    ensures var token := SpanToken(|spans|);
            var next := out + text[cursor..m.start] + token;
            Insert(Protection(out + text[cursor..], spans, trace), |out| + m.start - cursor, m.end - m.start)
            == Protection(next + text[m.end..], spans + [Span(token, text[m.start..m.end])],
                          trace + [next + text[m.end..]])
  {
    var now, at, length := out + text[cursor..], |out| + m.start - cursor, m.end - m.start;
    assert now[at..at + length] == text[m.start..m.end];
    assert now[..at] == out + text[cursor..m.start];
    assert now[at + length..] == text[m.end..];
  }

  lemma PassUnfold(p: Protection, ms: seq<Match>, from: nat, shift: int)
    requires ms != [] && Separate(ms, |p.text| - shift) && from + shift >= 0 && from <= ms[0].start
    ensures var length := ms[0].end - ms[0].start;
            Pass(p, ms, from, shift) == Pass(Insert(p, ms[0].start + shift, length), ms[1..], ms[0].end,
                                             shift + |SpanToken(|p.spans|)| - length)
  {
  }

  /** Copying has reached `cursor`; passing over the remaining matches still leads to `goal`. */
  ghost predicate Copying(goal: Protection, out: string, text: string, cursor: nat, todo: seq<Match>, spans: seq<Span>,
                          trace: seq<string>)
  {
    && cursor <= |text| && Separate(todo, |text|) && (forall j :: 0 <= j < |todo| ==> cursor <= todo[j].start)
    && Pass(Protection(out + text[cursor..], spans, trace), todo, cursor, |out| - cursor) == goal
  }

  lemma CopyOn(goal: Protection, out: string, next: string, text: string, cursor: nat, todo: seq<Match>,
               spans: seq<Span>, trace: seq<string>)
    requires Copying(goal, out, text, cursor, todo, spans, trace) && todo != []
    requires next == out + text[cursor..todo[0].start] + SpanToken(|spans|)
    ensures var m := todo[0];
            Copying(goal, next, text, m.end, todo[1..], spans + [Span(SpanToken(|spans|), text[m.start..m.end])],
                    trace + [next + text[m.end..]])
  {
    var m, token := todo[0], SpanToken(|spans|);
    var p := Protection(out + text[cursor..], spans, trace);
    var q := Protection(next + text[m.end..], spans + [Span(token, text[m.start..m.end])],
                        trace + [next + text[m.end..]]);
    CopyIsInsert(out, text, cursor, m, spans, trace);
    PassUnfold(p, todo, cursor, |out| - cursor);
    SeparateTail(todo, |text|);
  }

  lemma SeparateTail(todo: seq<Match>, length: nat)
    requires todo != [] && Separate(todo, length)
    ensures Separate(todo[1..], length) && forall j :: 0 <= j < |todo[1..]| ==> todo[0].end <= todo[1..][j].start
  {
  }

  lemma LettersStep(chars: string, value: nat, next: nat)
    requires next == value / 26
    ensures chars + Letters(value)
         == chars + [('A' as int + value % 26) as char] + (if next == 0 then [] else Letters(next))
  {
    var rest := if next == 0 then [] else Letters(next);
    assert Letters(value) == [('A' as int + value % 26) as char] + rest;
  }

  /** The loop that spells an index. */
  method MakeToken(index: nat) returns (token: string)
    ensures token == SpanToken(index)
  {
    var chars: string := [];
    var value := index;
    ghost var all := Letters(index);
    while true
      invariant chars + Letters(value) == all
      decreases value
    {
      var next := value / 26;
      LettersStep(chars, value, next);
      chars := chars + [('A' as int + value % 26) as char];
      if next == 0 {
        assert chars == all;
        break;
      }
      value := next;
    }
    token := MARKER + chars;
  }

  /** One substitution, building the new text from the stretches between the matches. */
  method Substitute(text: string, before: seq<Span>, ghost earlier: seq<string>, matches: seq<Match>)
    returns (protected: string, spans: seq<Span>, ghost trace: seq<string>)
    requires Separate(matches, |text|)
    ensures Protection(protected, spans, trace) == Pass(Protection(text, before, earlier), matches, 0, 0)
    ensures var p := Pass(Protection(text, before, earlier), matches, 0, 0); protected == p.text && spans == p.spans
  {
    var out := "";
    var cursor: nat := 0;
    var todo := matches;
    spans := before;
    trace := earlier;
    ghost var goal := Pass(Protection(text, before, earlier), matches, 0, 0);
    assert out + text[cursor..] == text;
    while todo != []
      invariant Copying(goal, out, text, cursor, todo, spans, trace)
      decreases |todo|
    {
      var m := todo[0];
      var token := MakeToken(|spans|);
      var next := out + text[cursor..m.start] + token;
      CopyOn(goal, out, next, text, cursor, todo, spans, trace);
      spans := spans + [Span(token, text[m.start..m.end])];
      trace := trace + [next + text[m.end..]];
      out, cursor, todo := next, m.end, todo[1..];
    }
    protected := out + text[cursor..];
  }

  method ProtectSpans(text: string, patterns: seq<Pattern>) returns (protected: string, spans: seq<Span>)
    requires AllFindSeparate(patterns)
    ensures protected == Protected(text, patterns).text && spans == Protected(text, patterns).spans
  {
    protected, spans := text, [];
    ghost var trace: seq<string> := [];
    var i := 0;
    while i < |patterns|
      invariant 0 <= i <= |patterns| && AllFindSeparate(patterns[i..])
      invariant ProtectAll(Protection(protected, spans, trace), patterns[i..]) == Protected(text, patterns)
    {
      FirstAndOthers(patterns[i..]);
      assert patterns[i..][0] == patterns[i] && patterns[i..][1..] == patterns[i + 1..];
      protected, spans, trace := Substitute(protected, spans, trace, patterns[i](protected));
      i := i + 1;
    }
  }

  method RestoreSpans(text: string, spans: seq<Span>) returns (restored: string)
    requires forall i :: 0 <= i < |spans| ==> spans[i].token != []
    ensures restored == Restored(text, spans)
  {
    restored := text;
    var i := |spans|;
    assert spans[..i] == spans;
    while i > 0
      invariant 0 <= i <= |spans|
      invariant Restored(restored, spans[..i]) == Restored(text, spans)
    {
      i := i - 1;
      assert spans[..i + 1][..i] == spans[..i];
      restored := Replace(restored, spans[i].token, spans[i].original);
    }
  }
}

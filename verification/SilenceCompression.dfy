/** Shortening long pauses in synthesized speech. A frame holds one sample per channel. */
module SilenceCompression {

  type Frame = seq<real>

  datatype Report = Report(longCount: nat, maxSilenceMs: real, ratio: real)

  const NO_SILENCE := Report(0, 0.0, 0.0)

  function Abs(x: real): real {
    if x < 0.0 then -x else x
  }

  function Min(a: nat, b: nat): nat {
    if a < b then a else b
  }

  /** No channel is louder than the threshold. */
  predicate Quiet(f: Frame, threshold: real) {
    forall c :: 0 <= c < |f| ==> Abs(f[c]) <= threshold
  }

  /** The number of quiet frames in front. */
  function RunLength(a: seq<Frame>, threshold: real): (n: nat)
    ensures n <= |a|
    ensures forall i :: 0 <= i < n ==> Quiet(a[i], threshold)
    ensures n < |a| ==> !Quiet(a[n], threshold)
  {
    if a == [] || !Quiet(a[0], threshold) then 0 else 1 + RunLength(a[1..], threshold)
  }

  /** The lengths of the maximal runs of quiet frames, in order. */
  function Runs(a: seq<Frame>, threshold: real): seq<nat>
    decreases |a|
  {
    if a == [] then []
    else if !Quiet(a[0], threshold) then Runs(a[1..], threshold)
    else [RunLength(a, threshold)] + Runs(a[RunLength(a, threshold)..], threshold)
  }

  /** Run by run: a maximal quiet run is cut to at most `limit` frames, everything else stays. */
  function Compressed(a: seq<Frame>, threshold: real, limit: nat): seq<Frame>
    decreases |a|
  {
    if a == [] then []
    else if !Quiet(a[0], threshold) then [a[0]] + Compressed(a[1..], threshold, limit)
    else
      var n := RunLength(a, threshold);
      a[..Min(n, limit)] + Compressed(a[n..], threshold, limit)
  }

  function Loud(a: seq<Frame>, threshold: real): seq<Frame> {
    if a == [] then [] else (if Quiet(a[0], threshold) then [] else [a[0]]) + Loud(a[1..], threshold)
  }

  function CountAtLeast(runs: seq<nat>, bound: int): nat {
    if runs == [] then 0 else (if runs[0] >= bound then 1 else 0) + CountAtLeast(runs[1..], bound)
  }

  function Longest(runs: seq<nat>): nat {
    if runs == [] then 0 else if runs[0] > Longest(runs[1..]) then runs[0] else Longest(runs[1..])
  }

  function QuietCount(a: seq<Frame>, threshold: real): nat {
    if a == [] then 0 else (if Quiet(a[0], threshold) then 1 else 0) + QuietCount(a[1..], threshold)
  }

  function Capped(runs: seq<nat>, limit: nat): seq<nat> {
    if runs == [] then [] else [Min(runs[0], limit)] + Capped(runs[1..], limit)
  }

  function Flatten(parts: seq<seq<Frame>>): seq<Frame> {
    if parts == [] then [] else parts[0] + Flatten(parts[1..])
  }

  /** What a report says about a signal, counting the runs of at least `bound` frames as long. */
  function ReportOf(a: seq<Frame>, threshold: real, bound: int, sampleRate: int): Report
    requires sampleRate > 0
  {
    var runs := Runs(a, threshold);
    if a == [] then NO_SILENCE
    else Report(CountAtLeast(runs, bound), Longest(runs) as real * 1000.0 / sampleRate as real,
                QuietCount(a, threshold) as real / |a| as real)
  }

  function MaxSamples(sampleRate: int, maxSilenceMs: real): int
    requires sampleRate > 0
  {
    (sampleRate as real * (if maxSilenceMs < 0.0 then 0.0 else maxSilenceMs) / 1000.0).Floor
  }

  /** The limit in frames is the longest that lasts at most the limit in time. */
  lemma LimitInTime(sampleRate: int, maxSilenceMs: real)
    requires sampleRate > 0 && maxSilenceMs >= 0.0
    ensures var limit := MaxSamples(sampleRate, maxSilenceMs);
            && limit >= 0 && limit as real * 1000.0 / sampleRate as real <= maxSilenceMs
            && (limit + 1) as real * 1000.0 / sampleRate as real > maxSilenceMs
  {
    var limit, frames := MaxSamples(sampleRate, maxSilenceMs), sampleRate as real * maxSilenceMs / 1000.0;
    assert frames >= 0.0;
    Lasting(limit as real, sampleRate as real, maxSilenceMs);
    Lasting((limit + 1) as real, sampleRate as real, maxSilenceMs);
  }

  lemma Lasting(n: real, rate: real, ms: real)
    requires rate > 0.0
    ensures n * 1000.0 / rate <= ms <==> n <= rate * ms / 1000.0
  {
    var time := n * 1000.0 / rate;
    assert time * rate == n * 1000.0;
    if time <= ms { Scaled(time, ms, rate); } else { ScaledStrictly(ms, time, rate); }
  }

  lemma Scaled(x: real, y: real, rate: real)
    requires x <= y && rate > 0.0
    ensures x * rate <= y * rate
  {
  }

  lemma ScaledStrictly(x: real, y: real, rate: real)
    requires x < y && rate > 0.0
    ensures x * rate < y * rate
  {
  }

  // ---------- small facts ----------

  lemma {:induction false} FlattenOne(parts: seq<seq<Frame>>, p: seq<Frame>)
    ensures Flatten(parts + [p]) == Flatten(parts) + p
  {
    if parts == [] {
      assert [] + [p] == [p] && Flatten([p]) == p;
    } else {
      assert (parts + [p])[1..] == parts[1..] + [p];
      FlattenOne(parts[1..], p);
    }
  }

  /** A quiet stretch ended by a loud frame, or by the end, is one run. */
  lemma {:induction false} RunOfStretch(q: seq<Frame>, rest: seq<Frame>, threshold: real)
    requires forall i :: 0 <= i < |q| ==> Quiet(q[i], threshold)
    requires rest != [] ==> !Quiet(rest[0], threshold)
    ensures RunLength(q + rest, threshold) == |q|
  {
    if q == [] {
      assert q + rest == rest;
    } else {
      assert (q + rest)[1..] == q[1..] + rest;
      RunOfStretch(q[1..], rest, threshold);
    }
  }

  /** How much of the runs is known after looking at the first frames. */
  ghost predicate Seen(a: seq<Frame>, threshold: real, i: nat, bound: int, longCount: nat, maxRun: nat)
    requires i <= |a|
  {
    var all, rest := Runs(a, threshold), Runs(a[i..], threshold);
    && CountAtLeast(all, bound) == longCount + CountAtLeast(rest, bound)
    && Longest(all) == (if maxRun > Longest(rest) then maxRun else Longest(rest))
  }

  lemma SeeRun(a: seq<Frame>, threshold: real, i: nat, end: nat, bound: int, longCount: nat, maxRun: nat)
    requires i < end <= |a| && Seen(a, threshold, i, bound, longCount, maxRun)
    requires forall j :: i <= j < end ==> Quiet(a[j], threshold)
    requires end < |a| ==> !Quiet(a[end], threshold)
    ensures RunLength(a[i..], threshold) == end - i && a[i..][end - i..] == a[end..]
    ensures Seen(a, threshold, end, bound, if end - i >= bound then longCount + 1 else longCount,
                 if end - i > maxRun then end - i else maxRun)
  {
    RunOfStretch(a[i..end], a[end..], threshold);
    assert a[i..end] + a[end..] == a[i..];
    assert Runs(a[i..], threshold) == [end - i] + Runs(a[end..], threshold);
  }

  lemma SeeLoud(a: seq<Frame>, threshold: real, i: nat, bound: int, longCount: nat, maxRun: nat)
    requires i < |a| && !Quiet(a[i], threshold) && Seen(a, threshold, i, bound, longCount, maxRun)
    ensures Seen(a, threshold, i + 1, bound, longCount, maxRun)
  {
    assert a[i..][1..] == a[i + 1..];
  }

  // ---------- the loops ----------

  /** The inner loop of both loops below: past the quiet frames. */
  method EndOfRun(a: seq<Frame>, threshold: real, start: nat) returns (end: nat)
    requires start < |a| && Quiet(a[start], threshold)
    ensures start < end <= |a|
    ensures forall j :: start <= j < end ==> Quiet(a[j], threshold)
    ensures end < |a| ==> !Quiet(a[end], threshold)
  {
    end := start;
    while end < |a| && Quiet(a[end], threshold)
      invariant start <= end <= |a| && (end == start ==> start < |a| && Quiet(a[start], threshold))
      invariant forall j :: start <= j < end ==> Quiet(a[j], threshold)
    {
      end := end + 1;
    }
  }

  method AnalyzeSilence(a: seq<Frame>, sampleRate: int, threshold: real) returns (report: Report)
    requires sampleRate > 0
    ensures report == ReportOf(a, threshold, sampleRate, sampleRate)
  {
    if a == [] { return NO_SILENCE; }
    var maxRun, longCount, i := 0, 0, 0;
    var total := QuietCount(a, threshold);
    assert a[0..] == a;
    while i < |a|
      invariant 0 <= i <= |a| && Seen(a, threshold, i, sampleRate, longCount, maxRun)
    {
      if !Quiet(a[i], threshold) {
        SeeLoud(a, threshold, i, sampleRate, longCount, maxRun);
        i := i + 1;
        continue;
      }
      var start := i;
      i := EndOfRun(a, threshold, start);
      SeeRun(a, threshold, start, i, sampleRate, longCount, maxRun);
      var run := i - start;
      if run > maxRun { maxRun := run; }
      if run >= sampleRate { longCount := longCount + 1; }
    }
    assert a[i..] == [];
    return Report(longCount, maxRun as real * 1000.0 / sampleRate as real, total as real / |a| as real);
  }

  lemma CompressRun(a: seq<Frame>, threshold: real, limit: nat, start: nat, end: nat)
    requires start < end <= |a| && Quiet(a[start], threshold) && RunLength(a[start..], threshold) == end - start
    ensures Compressed(a[start..], threshold, limit)
         == a[start..start + Min(end - start, limit)] + Compressed(a[end..], threshold, limit)
  {
    var s := a[start..];
    assert s[..Min(end - start, limit)] == a[start..start + Min(end - start, limit)];
    assert s[end - start..] == a[end..];
  }

  lemma LoudStays(a: seq<Frame>, threshold: real, limit: nat, i: nat)
    requires i < |a| && !Quiet(a[i], threshold)
    ensures Compressed(a[i..], threshold, limit) == a[i..i + 1] + Compressed(a[i + 1..], threshold, limit)
  {
    assert a[i..][1..] == a[i + 1..];
    assert a[i..i + 1] == [a[i]];
  }

  /** Parts already emitted, the stretch not emitted yet, and what compressing the remainder will add. */
  ghost predicate Emitted(a: seq<Frame>, threshold: real, limit: nat, parts: seq<seq<Frame>>, cursor: nat, i: nat)
    requires cursor <= i <= |a|
  {
    Flatten(parts) + (a[cursor..i] + Compressed(a[i..], threshold, limit)) == Compressed(a, threshold, limit)
  }

  lemma Associate(x: seq<Frame>, y: seq<Frame>, z: seq<Frame>)
    ensures x + (y + z) == x + y + z
  {
  }

  lemma Regroup(w: seq<Frame>, x: seq<Frame>, y: seq<Frame>, z: seq<Frame>)
    ensures w + (x + (y + z)) == w + x + y + ([] + z)
  {
  }

  lemma ShortRunStays(a: seq<Frame>, threshold: real, limit: nat, start: nat, end: nat)
    requires start < end <= |a| && Quiet(a[start], threshold)
    requires RunLength(a[start..], threshold) == end - start <= limit
    ensures Compressed(a[start..], threshold, limit) == a[start..end] + Compressed(a[end..], threshold, limit)
  {
    CompressRun(a, threshold, limit, start, end);
    assert Min(end - start, limit) == end - start;
  }

  /** Moving a stretch from the remainder to what waits to be emitted. */
  lemma EmitStretch(a: seq<Frame>, threshold: real, limit: nat, parts: seq<seq<Frame>>, cursor: nat, i: nat, j: nat)
    requires cursor <= i <= j <= |a| && Emitted(a, threshold, limit, parts, cursor, i)
    requires Compressed(a[i..], threshold, limit) == a[i..j] + Compressed(a[j..], threshold, limit)
    ensures Emitted(a, threshold, limit, parts, cursor, j)
  {
    Associate(a[cursor..i], a[i..j], Compressed(a[j..], threshold, limit));
    assert a[cursor..i] + a[i..j] == a[cursor..j];
  }

  lemma TwoMoreParts(parts: seq<seq<Frame>>, x: seq<Frame>, y: seq<Frame>)
    ensures Flatten((if x != [] then parts + [x] else parts) + [y]) == Flatten(parts) + x + y
  {
    var first := if x != [] then parts + [x] else parts;
    FlattenOne(parts, x);
    assert Flatten(first) == Flatten(parts) + x;
    FlattenOne(first, y);
  }

  lemma LongRunIsCut(a: seq<Frame>, threshold: real, limit: nat, start: nat, end: nat)
    requires start < end <= |a| && Quiet(a[start], threshold)
    requires RunLength(a[start..], threshold) == end - start > limit
    ensures Compressed(a[start..], threshold, limit) == a[start..start + limit] + Compressed(a[end..], threshold, limit)
  {
    CompressRun(a, threshold, limit, start, end);
    assert Min(end - start, limit) == limit;
  }

  /** Emitting what waits and the part of a run that stays. */
  lemma EmitLongRun(a: seq<Frame>, threshold: real, limit: nat, parts: seq<seq<Frame>>, cursor: nat, start: nat,
                    end: nat)
    requires cursor <= start <= start + limit <= end <= |a| && Emitted(a, threshold, limit, parts, cursor, start)
    requires Compressed(a[start..], threshold, limit) ==
             a[start..start + limit] + Compressed(a[end..], threshold, limit)
    ensures var x := a[cursor..start];
            var more := (if x != [] then parts + [x] else parts) + [a[start..start + limit]];
            Emitted(a, threshold, limit, more, end, end)
  {
    var x, y, z := a[cursor..start], a[start..start + limit], Compressed(a[end..], threshold, limit);
    TwoMoreParts(parts, x, y);
    Regroup(Flatten(parts), x, y, z);
    assert a[end..end] == [];
  }

  lemma EmitRest(a: seq<Frame>, threshold: real, limit: nat, parts: seq<seq<Frame>>, cursor: nat)
    requires cursor <= |a| && Emitted(a, threshold, limit, parts, cursor, |a|)
    ensures var all := if cursor < |a| then parts + [a[cursor..]] else parts;
            Flatten(all) == Compressed(a, threshold, limit)
  {
    assert a[|a|..] == [];
    FlattenOne(parts, a[cursor..]);
    assert a[cursor..|a|] + [] == a[cursor..];
  }

  lemma NothingLeft(a: seq<Frame>, threshold: real, bound: int, longCount: nat, maxRun: nat)
    requires Seen(a, threshold, |a|, bound, longCount, maxRun)
    ensures longCount == CountAtLeast(Runs(a, threshold), bound) && maxRun == Longest(Runs(a, threshold))
  {
    assert a[|a|..] == [];
  }

  /** Where the loop below stands: what is emitted, from where on it is not, how far it has looked, what it counted. */
  datatype Progress = Progress(parts: seq<seq<Frame>>, cursor: nat, i: nat, longCount: nat, maxRun: nat)

  ghost predicate OnTrack(a: seq<Frame>, threshold: real, limit: nat, p: Progress) {
    && p.cursor <= p.i <= |a|
    && Emitted(a, threshold, limit, p.parts, p.cursor, p.i)
    && Seen(a, threshold, p.i, limit + 1, p.longCount, p.maxRun)
  }

  /** One round of the loop at a quiet frame. */
  method NextRun(a: seq<Frame>, threshold: real, limit: nat, p: Progress) returns (q: Progress)
    requires OnTrack(a, threshold, limit, p) && p.i < |a| && Quiet(a[p.i], threshold)
    ensures OnTrack(a, threshold, limit, q) && q.i > p.i
  {
    var start := p.i;
    var end := EndOfRun(a, threshold, start);
    SeeRun(a, threshold, start, end, limit + 1, p.longCount, p.maxRun);
    var run := end - start;
    q := p.(i := end, maxRun := if run > p.maxRun then run else p.maxRun);
    if run > limit {
      LongRunIsCut(a, threshold, limit, start, end);
      EmitLongRun(a, threshold, limit, p.parts, p.cursor, start, end);
      var parts := if start > p.cursor then p.parts + [a[p.cursor..start]] else p.parts;
      q := q.(longCount := p.longCount + 1, parts := parts + [a[start..start + limit]], cursor := end);
    } else {
      ShortRunStays(a, threshold, limit, start, end);
      EmitStretch(a, threshold, limit, p.parts, p.cursor, start, end);
    }
  }

  lemma PassLoud(a: seq<Frame>, threshold: real, limit: nat, p: Progress)
    requires OnTrack(a, threshold, limit, p) && p.i < |a| && !Quiet(a[p.i], threshold)
    ensures OnTrack(a, threshold, limit, p.(i := p.i + 1))
  {
    LoudStays(a, threshold, limit, p.i);
    EmitStretch(a, threshold, limit, p.parts, p.cursor, p.i, p.i + 1);
    SeeLoud(a, threshold, p.i, limit + 1, p.longCount, p.maxRun);
  }

  lemma AtTheStart(a: seq<Frame>, threshold: real, limit: nat)
    ensures OnTrack(a, threshold, limit, Progress([], 0, 0, 0, 0))
  {
    assert a[0..] == a && a[0..0] == [];
  }

  lemma AtTheEnd(a: seq<Frame>, threshold: real, limit: nat, p: Progress)
    requires OnTrack(a, threshold, limit, p) && p.i == |a|
    ensures Flatten(if p.cursor < |a| then p.parts + [a[p.cursor..]] else p.parts) == Compressed(a, threshold, limit)
    ensures p.longCount == CountAtLeast(Runs(a, threshold), limit + 1) && p.maxRun == Longest(Runs(a, threshold))
  {
    assert a[|a|..] == [];
    EmitRest(a, threshold, limit, p.parts, p.cursor);
  }

  /** The loop over the frames, for a positive limit. */
  method CutPauses(a: seq<Frame>, threshold: real, limit: nat)
    returns (result: seq<Frame>, longCount: nat, maxRun: nat)
    ensures result == Compressed(a, threshold, limit)
    ensures longCount == CountAtLeast(Runs(a, threshold), limit + 1) && maxRun == Longest(Runs(a, threshold))
  {
    var p := Progress([], 0, 0, 0, 0);
    AtTheStart(a, threshold, limit);
    while p.i < |a|
      invariant OnTrack(a, threshold, limit, p)
      decreases |a| - p.i
    {
      if !Quiet(a[p.i], threshold) {
        PassLoud(a, threshold, limit, p);
        p := p.(i := p.i + 1);
      } else {
        p := NextRun(a, threshold, limit, p);
      }
    }
    AtTheEnd(a, threshold, limit, p);
    result := Flatten(if p.cursor < |a| then p.parts + [a[p.cursor..]] else p.parts);
    longCount, maxRun := p.longCount, p.maxRun;
  }

  method CompressLongSilence(a: seq<Frame>, sampleRate: int, threshold: real, maxSilenceMs: real)
    returns (result: seq<Frame>, report: Report)
    requires sampleRate > 0
    ensures var limit := MaxSamples(sampleRate, maxSilenceMs);
            if limit <= 0 then
              result == a && report == ReportOf(a, threshold, sampleRate, sampleRate)
            else
              result == Compressed(a, threshold, limit) && report == ReportOf(a, threshold, limit + 1, sampleRate)
  {
    if a == [] { return a, NO_SILENCE; }
    var limit := MaxSamples(sampleRate, maxSilenceMs);
    var total := QuietCount(a, threshold);
    if limit <= 0 {
      report := AnalyzeSilence(a, sampleRate, threshold);
      return a, report;
    }
    var longCount, maxRun;
    result, longCount, maxRun := CutPauses(a, threshold, limit);
    report := Report(longCount, maxRun as real * 1000.0 / sampleRate as real, total as real / |a| as real);
  }

  // ---------- what compression guarantees ----------

  lemma {:induction false} LoudConcat(a: seq<Frame>, b: seq<Frame>, threshold: real)
    ensures Loud(a + b, threshold) == Loud(a, threshold) + Loud(b, threshold)
  {
    if a == [] {
      assert a + b == b;
    } else {
      assert (a + b)[1..] == a[1..] + b;
      LoudConcat(a[1..], b, threshold);
    }
  }

  lemma {:induction false} QuietHasNothingLoud(a: seq<Frame>, threshold: real)
    requires forall i :: 0 <= i < |a| ==> Quiet(a[i], threshold)
    ensures Loud(a, threshold) == []
  {
    if a != [] { QuietHasNothingLoud(a[1..], threshold); }
  }

  /** Every frame above the threshold is kept, in order, and none is added. */
  lemma {:induction false} CompressionKeepsSpeech(a: seq<Frame>, threshold: real, limit: nat)
    ensures Loud(Compressed(a, threshold, limit), threshold) == Loud(a, threshold)
    decreases |a|
  {
    if a != [] {
      if !Quiet(a[0], threshold) {
        CompressionKeepsSpeech(a[1..], threshold, limit);
        LoudConcat([a[0]], Compressed(a[1..], threshold, limit), threshold);
      } else {
        var n := RunLength(a, threshold);
        CompressionKeepsSpeech(a[n..], threshold, limit);
        LoudConcat(a[..Min(n, limit)], Compressed(a[n..], threshold, limit), threshold);
        QuietHasNothingLoud(a[..Min(n, limit)], threshold);
        LoudConcat(a[..n], a[n..], threshold);
        QuietHasNothingLoud(a[..n], threshold);
        assert a[..n] + a[n..] == a;
      }
    }
  }

  lemma RunsOfStretch(q: seq<Frame>, rest: seq<Frame>, threshold: real)
    requires q != [] && forall i :: 0 <= i < |q| ==> Quiet(q[i], threshold)
    requires rest != [] ==> !Quiet(rest[0], threshold)
    ensures Runs(q + rest, threshold) == [|q|] + Runs(rest, threshold)
  {
    RunOfStretch(q, rest, threshold);
    assert (q + rest)[|q|..] == rest;
  }

  /** The pauses keep their number and order, and each is cut to the limit: none is longer than the limit, and none
      that was not too long has changed. */
  lemma {:induction false} PausesAreCapped(a: seq<Frame>, threshold: real, limit: nat)
    requires limit > 0
    ensures Runs(Compressed(a, threshold, limit), threshold) == Capped(Runs(a, threshold), limit)
    ensures a != [] && !Quiet(a[0], threshold) ==>
              Compressed(a, threshold, limit) != [] && Compressed(a, threshold, limit)[0] == a[0]
    decreases |a|
  {
    if a != [] {
      if !Quiet(a[0], threshold) {
        PausesAreCapped(a[1..], threshold, limit);
        var rest := Compressed(a[1..], threshold, limit);
        assert ([a[0]] + rest)[1..] == rest;
      } else {
        var n := RunLength(a, threshold);
        PausesAreCapped(a[n..], threshold, limit);
        RunsOfStretch(a[..Min(n, limit)], Compressed(a[n..], threshold, limit), threshold);
      }
    }
  }

  lemma {:induction false} CappedIsAtMost(runs: seq<nat>, limit: nat)
    ensures Longest(Capped(runs, limit)) == Min(Longest(runs), limit)
  {
    if runs != [] { CappedIsAtMost(runs[1..], limit); }
  }

  lemma {:induction false} ShortPausesStay(a: seq<Frame>, threshold: real, limit: nat)
    requires Longest(Runs(a, threshold)) <= limit
    ensures Compressed(a, threshold, limit) == a
    decreases |a|
  {
    if a != [] {
      if !Quiet(a[0], threshold) {
        ShortPausesStay(a[1..], threshold, limit);
      } else {
        var n := RunLength(a, threshold);
        var rest := Runs(a[n..], threshold);
        assert Runs(a, threshold)[0] == n && Runs(a, threshold)[1..] == rest;
        ShortPausesStay(a[n..], threshold, limit);
        assert a[..n] + a[n..] == a;
      }
    }
  }

  /** Compression changes a signal exactly if some pause is longer than the limit. */
  lemma ChangesExactlyLongPauses(a: seq<Frame>, threshold: real, limit: nat)
    requires limit > 0
    ensures Compressed(a, threshold, limit) == a <==> Longest(Runs(a, threshold)) <= limit
  {
    PausesAreCapped(a, threshold, limit);
    CappedIsAtMost(Runs(a, threshold), limit);
    if Longest(Runs(a, threshold)) <= limit { ShortPausesStay(a, threshold, limit); }
  }

  /** No pause of the compressed signal lasts longer than the limit in time, and one that did not is not shortened. */
  lemma PausesLastAtMost(a: seq<Frame>, threshold: real, sampleRate: int, maxSilenceMs: real, i: nat)
    requires sampleRate > 0 && MaxSamples(sampleRate, maxSilenceMs) > 0 && i < |Runs(a, threshold)|
    ensures var before := Runs(a, threshold);
            var after := Runs(Compressed(a, threshold, MaxSamples(sampleRate, maxSilenceMs)), threshold);
            && i < |after| && after[i] as real * 1000.0 / sampleRate as real <= maxSilenceMs
            && (before[i] as real * 1000.0 / sampleRate as real <= maxSilenceMs ==> after[i] == before[i])
  {
    var limit := MaxSamples(sampleRate, maxSilenceMs);
    PausesAreCapped(a, threshold, limit);
    CappedAt(Runs(a, threshold), limit, i);
    CappedInTime(Runs(a, threshold)[i], sampleRate, maxSilenceMs);
  }

  lemma CappedInTime(run: nat, sampleRate: int, maxSilenceMs: real)
    requires sampleRate > 0 && MaxSamples(sampleRate, maxSilenceMs) > 0
    ensures var capped := Min(run, MaxSamples(sampleRate, maxSilenceMs));
            && capped as real * 1000.0 / sampleRate as real <= maxSilenceMs
            && (run as real * 1000.0 / sampleRate as real <= maxSilenceMs ==> capped == run)
  {
    var limit, rate := MaxSamples(sampleRate, maxSilenceMs), sampleRate as real;
    Lasting(Min(run, limit) as real, rate, maxSilenceMs);
    Lasting(run as real, rate, maxSilenceMs);
    assert limit as real <= rate * maxSilenceMs / 1000.0 < (limit + 1) as real;
  }

  lemma {:induction false} CappedAt(runs: seq<nat>, limit: nat, i: nat)
    requires i < |runs|
    ensures |Capped(runs, limit)| == |runs| && Capped(runs, limit)[i] == Min(runs[i], limit)
  {
    if i > 0 { CappedAt(runs[1..], limit, i - 1); } else { CappedLength(runs, limit); }
  }

  lemma {:induction false} CappedLength(runs: seq<nat>, limit: nat)
    ensures |Capped(runs, limit)| == |runs|
  {
    if runs != [] { CappedLength(runs[1..], limit); }
  }

  /** Compressing again changes nothing. */
  lemma CompressionIsIdempotent(a: seq<Frame>, threshold: real, limit: nat)
    requires limit > 0
    ensures var b := Compressed(a, threshold, limit);
            Compressed(b, threshold, limit) == b && Longest(Runs(b, threshold)) <= limit
  {
    var b := Compressed(a, threshold, limit);
    PausesAreCapped(a, threshold, limit);
    CappedIsAtMost(Runs(a, threshold), limit);
    ChangesExactlyLongPauses(b, threshold, limit);
  }

  // ---------- loudness and the report ----------

  /** The largest magnitude of any channel. */
  function Loudness(f: Frame): real {
    if f == [] then 0.0 else if Abs(f[0]) > Loudness(f[1..]) then Abs(f[0]) else Loudness(f[1..])
  }

  /** A frame is quiet if its loudest channel is at most at the threshold. */
  lemma {:induction false} QuietMeansNoLouder(f: Frame, threshold: real)
    requires threshold >= 0.0
    ensures Quiet(f, threshold) <==> Loudness(f) <= threshold
  {
    if f != [] {
      var rest := f[1..];
      QuietMeansNoLouder(rest, threshold);
      assert forall c :: 1 <= c < |f| ==> f[c] == rest[c - 1];
      if Quiet(f, threshold) {
        forall c | 0 <= c < |rest| ensures Abs(rest[c]) <= threshold { assert Abs(f[c + 1]) <= threshold; }
      }
    }
  }

  /** The positions of the runs that have at least the bound. */
  function LongAt(runs: seq<nat>, bound: int): set<int> {
    set i | 0 <= i < |runs| && runs[i] >= bound
  }

  lemma {:induction false} CountIsTheNumber(runs: seq<nat>, bound: int)
    ensures CountAtLeast(runs, bound) == |LongAt(runs, bound)|
  {
    if runs == [] {
      assert LongAt(runs, bound) == {};
    } else {
      var front, last := runs[..|runs| - 1], runs[|runs| - 1];
      CountIsTheNumber(front, bound);
      CountOfLast(front, last, bound);
      assert front + [last] == runs;
      var n := |front|;
      if last >= bound {
        assert LongAt(runs, bound) == LongAt(front, bound) + {n};
      } else {
        assert LongAt(runs, bound) == LongAt(front, bound);
      }
    }
  }

  lemma {:induction false} CountOfLast(front: seq<nat>, last: nat, bound: int)
    ensures CountAtLeast(front + [last], bound) == CountAtLeast(front, bound) + (if last >= bound then 1 else 0)
  {
    if front == [] {
      assert [] + [last] == [last] && CountAtLeast([last][1..], bound) == 0;
    } else {
      assert (front + [last])[1..] == front[1..] + [last];
      CountOfLast(front[1..], last, bound);
    }
  }

  lemma {:induction false} LongestIsReached(runs: seq<nat>)
    ensures forall i :: 0 <= i < |runs| ==> runs[i] <= Longest(runs)
    ensures runs != [] ==> Longest(runs) in runs
  {
    if runs != [] {
      var rest := runs[1..];
      LongestIsReached(rest);
      forall i | 0 <= i < |runs| ensures runs[i] <= Longest(runs) { if i > 0 { assert runs[i] == rest[i - 1]; } }
      if rest != [] && Longest(runs) == Longest(rest) { assert Longest(rest) in rest; }
    }
  }

  /** The positions of the quiet frames. */
  function QuietAt(a: seq<Frame>, threshold: real): set<int> {
    set i | 0 <= i < |a| && Quiet(a[i], threshold)
  }

  lemma {:induction false} QuietFramesAreCounted(a: seq<Frame>, threshold: real)
    ensures QuietCount(a, threshold) == |QuietAt(a, threshold)|
  {
    if a == [] {
      assert QuietAt(a, threshold) == {};
    } else {
      var front, last := a[..|a| - 1], a[|a| - 1];
      QuietFramesAreCounted(front, threshold);
      QuietCountOfLast(front, last, threshold);
      assert front + [last] == a;
      var n := |front|;
      if Quiet(last, threshold) {
        assert QuietAt(a, threshold) == QuietAt(front, threshold) + {n};
      } else {
        assert QuietAt(a, threshold) == QuietAt(front, threshold);
      }
    }
  }

  lemma {:induction false} QuietCountOfLast(front: seq<Frame>, last: Frame, threshold: real)
    ensures QuietCount(front + [last], threshold) ==
            QuietCount(front, threshold) + (if Quiet(last, threshold) then 1 else 0)
  {
    if front == [] {
      assert [] + [last] == [last] && QuietCount([last][1..], threshold) == 0;
    } else {
      assert (front + [last])[1..] == front[1..] + [last];
      QuietCountOfLast(front[1..], last, threshold);
    }
  }

  /** What the report of a signal that is not empty says: how many pauses are long, how long the longest pause lasts,
      and which share of the frames is quiet. */
  lemma ReportIsTrue(a: seq<Frame>, threshold: real, bound: int, sampleRate: int) returns (longest: nat)
    requires sampleRate > 0 && a != []
    ensures var runs := Runs(a, threshold);
            (forall i :: 0 <= i < |runs| ==> runs[i] <= longest) && if runs == [] then longest == 0 else longest in runs
    ensures var report := ReportOf(a, threshold, bound, sampleRate);
            && report.longCount == |LongAt(Runs(a, threshold), bound)|
            && report.maxSilenceMs == longest as real * 1000.0 / sampleRate as real
            && report.ratio == |QuietAt(a, threshold)| as real / |a| as real
  {
    longest := Longest(Runs(a, threshold));
    CountIsTheNumber(Runs(a, threshold), bound);
    LongestIsReached(Runs(a, threshold));
    QuietFramesAreCounted(a, threshold);
  }

  /** The report of a compression counts a pause exactly if the compression changed something. */
  lemma ReportTellsOfChanges(a: seq<Frame>, threshold: real, limit: nat)
    requires limit > 0
    ensures CountAtLeast(Runs(a, threshold), limit + 1) == 0 <==> Compressed(a, threshold, limit) == a
  {
    var runs := Runs(a, threshold);
    ChangesExactlyLongPauses(a, threshold, limit);
    CountIsTheNumber(runs, limit + 1);
    LongestIsReached(runs);
    if Longest(runs) > limit {
      var i :| 0 <= i < |runs| && runs[i] == Longest(runs);
      assert i in LongAt(runs, limit + 1);
    } else {
      assert LongAt(runs, limit + 1) == {};
    }
  }
}

/** Joining audio parts with a short linear cross-fade, for one channel and in real arithmetic. */
module Crossfade {

  type Samples = seq<real>

  datatype Result = Ok(samples: Samples) | NothingToJoin

  function Abs(x: real): real {
    if x < 0.0 then -x else x
  }

  function Min(a: int, b: int): int {
    if a < b then a else b
  }

  /** `linspace(0, 1, n)[k]`. */
  function FadeIn(n: int, k: int): real
    requires n > 1
  {
    k as real / (n - 1) as real
  }

  /** The samples that two parts are to share. */
  function Wanted(fade: int, left: Samples, right: Samples): nat {
    Min(Min(if fade < 0 then 0 else fade, |left|), |right|)
  }

  /** The samples they do share: sharing one sample is not worth a fade. */
  function Overlap(fade: int, left: Samples, right: Samples): (n: nat)
    ensures n <= |left| && n <= |right| && n != 1
  {
    var n := Wanted(fade, left, right);
    if n <= 1 then 0 else n
  }

  /** Sample `i` of two parts joined. */
  function JoinedAt(fade: int, left: Samples, right: Samples, i: nat): real
    requires i < |left| + |right| - Overlap(fade, left, right)
  {
    var n := Overlap(fade, left, right);
    var k := i - (|left| - n);
    if k < 0 then left[i]
    else if k >= n then right[k]
    else left[i] * (1.0 - FadeIn(n, k)) + right[k] * FadeIn(n, k)
  }

  function Joined(fade: int, left: Samples, right: Samples): (r: Samples)
    ensures |r| == |left| + |right| - Overlap(fade, left, right)
    ensures forall i :: 0 <= i < |r| ==> r[i] == JoinedAt(fade, left, right, i)
  {
    seq(|left| + |right| - Overlap(fade, left, right),
        i requires 0 <= i < |left| + |right| - Overlap(fade, left, right) => JoinedAt(fade, left, right, i))
  }

  function NonEmpty(parts: seq<Samples>): seq<Samples> {
    if parts == [] then [] else (if parts[0] != [] then [parts[0]] else []) + NonEmpty(parts[1..])
  }

  function JoinAll(fade: int, first: Samples, rest: seq<Samples>): Samples
    decreases |rest|
  {
    if rest == [] then first else JoinAll(fade, Joined(fade, first, rest[0]), rest[1..])
  }

  /** Three pieces put together, sample by sample. */
  lemma PiecesAreJoined(fade: int, left: Samples, right: Samples, overlap: Samples)
    requires var n := Overlap(fade, left, right);
             n > 0 && |overlap| == n
             && forall k :: 0 <= k < n ==>
                  overlap[k] == left[|left| - n + k] * (1.0 - FadeIn(n, k)) + right[k] * FadeIn(n, k)
    ensures var n := Overlap(fade, left, right);
            left[..|left| - n] + overlap + right[n..] == Joined(fade, left, right)
  {
    var n := Overlap(fade, left, right);
    var r := left[..|left| - n] + overlap + right[n..];
    var joined := Joined(fade, left, right);
    assert |r| == |joined|;
    forall i | 0 <= i < |r| ensures r[i] == joined[i] {
      var k := i - (|left| - n);
      assert joined[i] == JoinedAt(fade, left, right, i);
      if k < 0 {
        assert r[i] == left[i];
      } else if k >= n {
        assert r[i] == right[k];
      } else {
        assert r[i] == overlap[k];
      }
    }
  }

  lemma NothingShared(fade: int, left: Samples, right: Samples)
    requires Overlap(fade, left, right) == 0
    ensures left + right == Joined(fade, left, right)
  {
    var r, joined := left + right, Joined(fade, left, right);
    forall i | 0 <= i < |r| ensures r[i] == joined[i] {
      assert joined[i] == JoinedAt(fade, left, right, i);
    }
  }

  /** One round of the loop below. */
  method AppendPart(left: Samples, part: Samples, fade: int) returns (r: Samples)
    ensures r == Joined(fade, left, part)
  {
    var n := Min(Min(if fade < 0 then 0 else fade, |left|), |part|);
    if n <= 1 {
      NothingShared(fade, left, part);
      return left + part;
    }
    var overlap := seq(n, k requires 0 <= k < n =>
      left[|left| - n + k] * (1.0 - k as real / (n - 1) as real) + part[k] * (k as real / (n - 1) as real));
    PiecesAreJoined(fade, left, part, overlap);
    return left[..|left| - n] + overlap + part[n..];
  }

  method CrossfadeConcat(waveforms: seq<Samples>, fade: int) returns (r: Result)
    ensures var parts := NonEmpty(waveforms);
            r == if parts == [] then NothingToJoin else Ok(JoinAll(fade, parts[0], parts[1..]))
  {
    var parts := NonEmpty(waveforms);
    if parts == [] { return NothingToJoin; }
    var result := parts[0];
    for j := 1 to |parts|
      invariant JoinAll(fade, result, parts[j..]) == JoinAll(fade, parts[0], parts[1..])
    {
      assert parts[j..][1..] == parts[j + 1..];
      result := AppendPart(result, parts[j], fade);
    }
    return Ok(result);
  }

  // ---------- how long, how loud ----------

  function Length(parts: seq<Samples>): nat {
    if parts == [] then 0 else |parts[0]| + Length(parts[1..])
  }

  /** The overlaps used in joining, one after the other. */
  function OverlapSum(fade: int, first: Samples, rest: seq<Samples>): nat
    decreases |rest|
  {
    if rest == [] then 0
    else Overlap(fade, first, rest[0]) + OverlapSum(fade, Joined(fade, first, rest[0]), rest[1..])
  }

  /** The result is as long as the parts together, minus the overlaps. */
  lemma {:induction false} LengthIsSumMinusOverlaps(fade: int, first: Samples, rest: seq<Samples>)
    ensures |JoinAll(fade, first, rest)| == |first| + Length(rest) - OverlapSum(fade, first, rest)
    decreases |rest|
  {
    if rest != [] { LengthIsSumMinusOverlaps(fade, Joined(fade, first, rest[0]), rest[1..]); }
  }

  function Flatten(parts: seq<Samples>): Samples {
    if parts == [] then [] else parts[0] + Flatten(parts[1..])
  }

  /** Without a fade of at least two samples the parts are just put one behind the other. */
  lemma {:induction false} NoFadeIsConcatenation(fade: int, first: Samples, rest: seq<Samples>)
    requires fade <= 1
    ensures JoinAll(fade, first, rest) == first + Flatten(rest)
    decreases |rest|
  {
    if rest != [] {
      assert Joined(fade, first, rest[0]) == first + rest[0];
      NoFadeIsConcatenation(fade, first + rest[0], rest[1..]);
      assert first + rest[0] + Flatten(rest[1..]) == first + (rest[0] + Flatten(rest[1..]));
    }
  }

  ghost predicate Within(s: Samples, bound: real) {
    forall i :: 0 <= i < |s| ==> Abs(s[i]) <= bound
  }

  ghost predicate AllWithin(parts: seq<Samples>, bound: real) {
    forall j :: 0 <= j < |parts| ==> Within(parts[j], bound)
  }

  lemma PartOfADistance(d: real, t: real, p: real)
    requires 0.0 <= d && 0.0 <= t <= 1.0 && p == d * t
    ensures 0.0 <= p <= d
  {
    var q := d * (1.0 - t);
    assert q >= 0.0;
    assert q == d - p;
  }

  /** A weighted mean lies between its two ends. */
  lemma MeanIsBetween(x: real, y: real, t: real)
    requires 0.0 <= t <= 1.0
    ensures (if x < y then x else y) <= x * (1.0 - t) + y * t <= (if x < y then y else x)
  {
    var d := if x <= y then y - x else x - y;
    var p := d * t;
    PartOfADistance(d, t, p);
    if x <= y {
      assert y == x + d && y * t == x * t + p;
      assert x * (1.0 - t) + y * t == x + p;
    } else {
      assert x == y + d && x * t == y * t + p;
      assert x * (1.0 - t) + y * t == x - p;
    }
  }

  lemma FadeInIsAFraction(n: int, k: int)
    requires 0 <= k < n && n > 1
    ensures 0.0 <= FadeIn(n, k) <= 1.0 && FadeIn(n, 0) == 0.0 && FadeIn(n, n - 1) == 1.0
  {
    var d := (n - 1) as real;
    assert k as real <= d && d > 0.0;
    assert k as real / d <= d / d == 1.0;
  }

  /** Joining never amplifies: every sample lies between the samples it is made of. */
  lemma JoinedIsWithin(fade: int, left: Samples, right: Samples, bound: real)
    requires Within(left, bound) && Within(right, bound)
    ensures Within(Joined(fade, left, right), bound)
  {
    forall i: nat | i < |Joined(fade, left, right)| ensures Abs(Joined(fade, left, right)[i]) <= bound {
      JoinedSampleIsWithin(fade, left, right, bound, i);
    }
  }

  lemma JoinedSampleIsWithin(fade: int, left: Samples, right: Samples, bound: real, i: nat)
    requires Within(left, bound) && Within(right, bound) && i < |Joined(fade, left, right)|
    ensures Abs(Joined(fade, left, right)[i]) <= bound
  {
    var n, r := Overlap(fade, left, right), Joined(fade, left, right);
    var k := i - (|left| - n);
    if 0 <= k < n {
      FadeInIsAFraction(n, k);
      MeanIsBetween(left[i], right[k], FadeIn(n, k));
      BetweenIsWithin(left[i], right[k], r[i], bound);
    } else {
      assert r[i] == if k < 0 then left[i] else right[k];
    }
  }

  lemma BetweenIsWithin(x: real, y: real, m: real, bound: real)
    requires Abs(x) <= bound && Abs(y) <= bound
    requires (if x < y then x else y) <= m <= (if x < y then y else x)
    ensures Abs(m) <= bound
  {
  }

  lemma {:induction false} JoinAllIsWithin(fade: int, first: Samples, rest: seq<Samples>, bound: real)
    requires Within(first, bound) && AllWithin(rest, bound)
    ensures Within(JoinAll(fade, first, rest), bound)
    decreases |rest|
  {
    if rest != [] {
      assert Within(rest[0], bound);
      JoinedIsWithin(fade, first, rest[0], bound);
      forall j | 0 <= j < |rest[1..]| ensures Within(rest[1..][j], bound) { assert Within(rest[j + 1], bound); }
      JoinAllIsWithin(fade, Joined(fade, first, rest[0]), rest[1..], bound);
    }
  }

  lemma {:induction false} NonEmptyWithin(parts: seq<Samples>, bound: real)
    requires AllWithin(parts, bound)
    ensures AllWithin(NonEmpty(parts), bound)
  {
    if parts != [] {
      assert Within(parts[0], bound);
      forall j | 0 <= j < |parts[1..]| ensures Within(parts[1..][j], bound) { assert Within(parts[j + 1], bound); }
      NonEmptyWithin(parts[1..], bound);
    }
  }

  /** No sample of the result is larger in magnitude than the largest sample of the parts. */
  lemma NeverLouderThanTheParts(waveforms: seq<Samples>, fade: int, bound: real)
    requires AllWithin(waveforms, bound) && NonEmpty(waveforms) != []
    ensures var parts := NonEmpty(waveforms); Within(JoinAll(fade, parts[0], parts[1..]), bound)
  {
    var parts := NonEmpty(waveforms);
    NonEmptyWithin(waveforms, bound);
    assert Within(parts[0], bound);
    forall j | 0 <= j < |parts[1..]| ensures Within(parts[1..][j], bound) { assert Within(parts[j + 1], bound); }
    JoinAllIsWithin(fade, parts[0], parts[1..], bound);
  }

  /** The fade goes from nothing to all in equal steps. */
  lemma FadeIsLinear(n: int, k: int)
    requires n > 1 && 0 <= k < n - 1
    ensures FadeIn(n, 0) == 0.0 && FadeIn(n, n - 1) == 1.0
    ensures FadeIn(n, k + 1) - FadeIn(n, k) == 1.0 / (n - 1) as real
  {
  }

  /** Where both parts say the same, so does the fade: a sound that goes on across the joint is not disturbed. */
  lemma AgreeingPartsAreKept(fade: int, left: Samples, right: Samples, i: nat)
    requires i < |Joined(fade, left, right)|
    requires var n := Overlap(fade, left, right);
             |left| - n <= i < |left| ==> left[i] == right[i - (|left| - n)]
    ensures Joined(fade, left, right)[i] == if i < |left| then left[i]
                                            else right[i - (|left| - Overlap(fade, left, right))]
  {
    var n := Overlap(fade, left, right);
    var k := i - (|left| - n);
    if 0 <= k < n { WeightsAddUp(left[i], FadeIn(n, k)); }
  }

  lemma WeightsAddUp(x: real, w: real)
    ensures x * (1.0 - w) + x * w == x
  {
  }

  /** The fade starts exactly at the left part and ends exactly at the right part, and outside of it both parts are
      untouched: no sample is skipped or repeated at either end of the fade. */
  lemma FadeMeetsBothParts(fade: int, left: Samples, right: Samples)
    ensures var n, r := Overlap(fade, left, right), Joined(fade, left, right);
            && r[..|left| - n] == left[..|left| - n] && r[|left|..] == right[n..]
            && (n > 0 ==> r[|left| - n] == left[|left| - n] && r[|left| - 1] == right[n - 1])
  {
    var n, r := Overlap(fade, left, right), Joined(fade, left, right);
    if n > 0 {
      FadeInIsAFraction(n, 0);
      assert r[|left| - n] == JoinedAt(fade, left, right, |left| - n);
      assert r[|left| - 1] == JoinedAt(fade, left, right, |left| - 1);
    }
    assert r[..|left| - n] == left[..|left| - n];
    assert r[|left|..] == right[n..];
  }

  /** The fade is as long as it can be: as long as wanted, or as one of the parts, whichever is shortest; and there is
      none if that is less than two samples. */
  lemma FadeIsAsLongAsItCanBe(fade: int, left: Samples, right: Samples)
    ensures var n := Overlap(fade, left, right);
            if fade < 2 || |left| < 2 || |right| < 2 then n == 0
            else n <= fade && n <= |left| && n <= |right| && (n == fade || n == |left| || n == |right|)
  {
  }

  /** Empty parts make no difference, and no other part is left out. */
  lemma {:induction false} EmptyPartsAreLeftOut(a: seq<Samples>, part: Samples, b: seq<Samples>)
    ensures NonEmpty(a + [part] + b) == NonEmpty(a) + (if part == [] then [] else [part]) + NonEmpty(b)
  {
    if a == [] {
      assert [] + [part] + b == [part] + b && ([part] + b)[1..] == b;
    } else {
      var rest := a[1..] + [part] + b;
      assert (a + [part] + b)[1..] == rest && (a + [part] + b)[0] == a[0];
      EmptyPartsAreLeftOut(a[1..], part, b);
      var head := if a[0] != [] then [a[0]] else [];
      assert head + (NonEmpty(a[1..]) + (if part == [] then [] else [part]) + NonEmpty(b))
          == head + NonEmpty(a[1..]) + (if part == [] then [] else [part]) + NonEmpty(b);
    }
  }
}

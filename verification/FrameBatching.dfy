/** Decoding generated codec frames in batches whose size follows the playback lead. */
module FrameBatching {

  datatype Thresholds = Thresholds(low: real, mid: real, high: real)

  /** `Never` until the first audio has been emitted. */
  datatype FirstAudio = Never | At(time: real)

  /** The seconds of audio that are ahead of playback. */
  function Lead(emittedSamples: int, sampleRate: int, firstAt: real, now: real): real {
    var elapsed := now - firstAt;
    emittedSamples as real / (if sampleRate == 0 then 1 else sampleRate) as real
    - (if elapsed < 0.0 then 0.0 else elapsed)
  }

  /** The number of frames to decode at once. */
  function FrameBudget(emittedSamples: int, sampleRate: int, first: FirstAudio, now: real, t: Thresholds): (b: nat)
    ensures b in {1, 2, 4, 8}
    ensures first == Never ==> b == 1
  {
    if first == Never || first.time == 0.0 then 1
    else
      var lead := Lead(emittedSamples, sampleRate, first.time, now);
      if lead < t.low then 1 else if lead < t.mid then 2 else if lead < t.high then 4 else 8
  }

  /** The lead is what has been emitted and not yet played: it grows with the samples, and shrinks with the time that
      has passed since the first of them. */
  lemma LeadIsWhatIsNotPlayed(emitted: int, sampleRate: int, firstAt: real, now: real)
    requires sampleRate > 0
    ensures now >= firstAt ==>
              Lead(emitted, sampleRate, firstAt, now) * sampleRate as real
              == emitted as real - (now - firstAt) * sampleRate as real
    ensures now <= firstAt ==> Lead(emitted, sampleRate, firstAt, now) * sampleRate as real == emitted as real
  {
    var rate := sampleRate as real;
    assert emitted as real / rate * rate == emitted as real;
    var elapsed := if now < firstAt then 0.0 else now - firstAt;
    assert (emitted as real / rate - elapsed) * rate == emitted as real / rate * rate - elapsed * rate;
  }

  /** The bands of the lead, if the thresholds are in order: below each of them the batch is at most half of that above
      it. */
  lemma BudgetBands(emitted: int, sampleRate: int, time: real, now: real, t: Thresholds)
    requires time != 0.0 && t.low <= t.mid <= t.high
    ensures var lead, b := Lead(emitted, sampleRate, time, now), FrameBudget(emitted, sampleRate, At(time), now, t);
            && (b >= 2 <==> lead >= t.low) && (b >= 4 <==> lead >= t.mid) && (b >= 8 <==> lead >= t.high)
  {
  }

  /** A first audio at the clock's zero counts as none. */
  lemma ZeroTimeIsNoTime(emitted: int, sampleRate: int, now: real, t: Thresholds)
    ensures FrameBudget(emitted, sampleRate, At(0.0), now, t) == FrameBudget(emitted, sampleRate, Never, now, t) == 1
  {
  }

  /** More audio ahead never means a smaller batch, whatever the thresholds. */
  lemma BudgetGrowsWithTheLead(emitted: int, more: int, sampleRate: int, first: FirstAudio, now: real, later: real,
                               t: Thresholds)
    requires first.At? ==> Lead(emitted, sampleRate, first.time, now) <= Lead(more, sampleRate, first.time, later)
    ensures FrameBudget(emitted, sampleRate, first, now, t) <= FrameBudget(more, sampleRate, first, later, t)
  {
  }

  /** The batches decoded so far and the frames still waiting. */
  datatype Batches<F> = Batches(decoded: seq<seq<F>>, waiting: seq<F>)

  function Max(a: int, b: int): int {
    if a < b then b else a
  }

  function Min(a: int, b: int): int {
    if a < b then a else b
  }

  /** The first `n` waiting frames are decoded. */
  function DecodeFirst<F>(s: Batches<F>, n: nat): Batches<F>
    requires n <= |s.waiting|
  {
    Batches(s.decoded + [s.waiting[..n]], s.waiting[n..])
  }

  function DecodePending<F>(s: Batches<F>, force: bool, budget: int): Batches<F> {
    if |s.waiting| == 0 || (!force && |s.waiting| < Max(1, budget)) then s
    else DecodeFirst(s, if force then |s.waiting| else Min(|s.waiting|, Max(1, budget)))
  }

  function OnFrame<F>(s: Batches<F>, frame: F, budget: int): Batches<F> {
    DecodePending(s.(waiting := s.waiting + [frame]), false, budget)
  }

  /** A generated frame and the budget that is resolved when it comes in. */
  datatype Arrival<F> = Arrival(frame: F, budget: int)

  function Fed<F>(arrivals: seq<Arrival<F>>): Batches<F> {
    if arrivals == [] then Batches([], [])
    else
      var last := arrivals[|arrivals| - 1];
      OnFrame(Fed(arrivals[..|arrivals| - 1]), last.frame, last.budget)
  }

  /** All frames of a chunk, and then the forced call. */
  function Finished<F>(arrivals: seq<Arrival<F>>, budget: int): Batches<F> {
    DecodePending(Fed(arrivals), true, budget)
  }

  function Frames<F>(arrivals: seq<Arrival<F>>): seq<F> {
    seq(|arrivals|, i requires 0 <= i < |arrivals| => arrivals[i].frame)
  }

  function Flatten<F>(parts: seq<seq<F>>): seq<F> {
    if parts == [] then [] else parts[0] + Flatten(parts[1..])
  }

  /** The frame callback and the nested decoding function of one chunk. `decoded` records the batches given to the
      codec session. */
  class FrameBatcher<F> {
    var pending: seq<F>
    var decoded: seq<seq<F>>

    ghost function State(): Batches<F>
      reads this
    {
      Batches(decoded, pending)
    }

    constructor ()
      ensures State() == Batches([], [])
    {
      pending, decoded := [], [];
    }

    method Decode(force: bool, budget: int)
      modifies this
      ensures State() == DecodePending(old(State()), force, budget)
    {
      var count := |pending|;
      if count <= 0 { return; }
      if !force && count < Max(1, budget) { return; }
      var n := if force then count else Min(count, Max(1, budget));
      var batch := pending[..n];
      pending := pending[n..];
      decoded := decoded + [batch];
    }

    /** Raises on cancellation, before the frame is taken. */
    method Accept(frame: F, budget: int, cancelled: bool) returns (raised: bool)
      modifies this
      ensures raised == cancelled
      ensures State() == if cancelled then old(State()) else OnFrame(old(State()), frame, budget)
    {
      if cancelled { return true; }
      pending := pending + [frame];
      Decode(false, budget);
      return false;
    }

    /** One chunk: the runtime hands over every frame it generates, then everything left is decoded. */
    method DecodeChunk(arrivals: seq<Arrival<F>>, finalBudget: int)
      requires State() == Batches([], [])
      modifies this
      ensures State() == Finished(arrivals, finalBudget)
    {
      assert arrivals[..0] == [];
      for i := 0 to |arrivals|
        invariant State() == Fed(arrivals[..i])
      {
        assert arrivals[..i + 1][..i] == arrivals[..i];
        var raised := Accept(arrivals[i].frame, arrivals[i].budget, false);
      }
      assert arrivals[..|arrivals|] == arrivals;
      Decode(true, finalBudget);
    }
  }

  // ---------- what batching guarantees ----------

  /** Everything decoded and everything waiting, in order. */
  function Held<F>(s: Batches<F>): seq<F> {
    Flatten(s.decoded) + s.waiting
  }

  lemma {:induction false} FlattenOne<F>(parts: seq<seq<F>>, p: seq<F>)
    ensures Flatten(parts + [p]) == Flatten(parts) + p
  {
    if parts == [] {
      assert [] + [p] == [p] && Flatten([p]) == p;
    } else {
      assert (parts + [p])[1..] == parts[1..] + [p];
      FlattenOne(parts[1..], p);
    }
  }

  lemma DecodingKeepsFrames<F>(s: Batches<F>, force: bool, budget: int)
    ensures Held(DecodePending(s, force, budget)) == Held(s)
  {
    var t := DecodePending(s, force, budget);
    if t != s {
      var n := if force then |s.waiting| else Min(|s.waiting|, Max(1, budget));
      FlattenOne(s.decoded, s.waiting[..n]);
      assert s.waiting[..n] + s.waiting[n..] == s.waiting;
    }
  }

  /** However the budgets change, no frame is lost, doubled or moved. */
  lemma {:induction false} NoFrameIsLost<F>(arrivals: seq<Arrival<F>>)
    ensures Held(Fed(arrivals)) == Frames(arrivals)
  {
    if arrivals == [] {
      assert Frames(arrivals) == [];
    } else {
      var before := arrivals[..|arrivals| - 1];
      var last := arrivals[|arrivals| - 1];
      NoFrameIsLost(before);
      var s := Fed(before);
      var t := s.(waiting := s.waiting + [last.frame]);
      DecodingKeepsFrames(t, false, last.budget);
      assert Held(t) == Held(s) + [last.frame];
      assert Frames(arrivals) == Frames(before) + [last.frame];
    }
  }

  /** The batches of a finished chunk are exactly its frames, in order, and nothing waits. */
  lemma BatchesAreTheFrames<F>(arrivals: seq<Arrival<F>>, budget: int)
    ensures Flatten(Finished(arrivals, budget).decoded) == Frames(arrivals)
    ensures Finished(arrivals, budget).waiting == []
  {
    NoFrameIsLost(arrivals);
    DecodingKeepsFrames(Fed(arrivals), true, budget);
    var s := Finished(arrivals, budget);
    assert Held(s) == Flatten(s.decoded);
  }

  ghost predicate BudgetsAtMost<F>(arrivals: seq<Arrival<F>>, most: nat) {
    forall i :: 0 <= i < |arrivals| ==> arrivals[i].budget <= most
  }

  ghost predicate NoEmptyOrLarge<F>(batches: seq<seq<F>>, most: nat) {
    forall i :: 0 <= i < |batches| ==> 1 <= |batches[i]| <= most
  }

  /** With budgets of at most `most`, fewer than `most` frames wait after any frame, even when the budget has just
      dropped; and no batch is empty or larger than `most`. */
  lemma {:induction false} FewFramesWait<F>(arrivals: seq<Arrival<F>>, most: nat)
    requires most >= 1 && BudgetsAtMost(arrivals, most)
    ensures |Fed(arrivals).waiting| < most && NoEmptyOrLarge(Fed(arrivals).decoded, most)
  {
    if arrivals != [] {
      FewFramesWait(arrivals[..|arrivals| - 1], most);
      assert arrivals[|arrivals| - 1].budget <= most;
    }
  }

  /** The budgets of the streaming decoder: at most seven frames wait, and no batch has more than eight. */
  lemma AtMostSevenFramesWait<F>(arrivals: seq<Arrival<F>>, budget: int)
    requires forall i :: 0 <= i < |arrivals| ==> arrivals[i].budget in {1, 2, 4, 8}
    ensures |Fed(arrivals).waiting| <= 7 && NoEmptyOrLarge(Finished(arrivals, budget).decoded, 8)
  {
    FewFramesWait(arrivals, 8);
  }

  /** The decoder with a fixed budget cuts the frames into batches of exactly that size, the last one excepted. */
  lemma {:induction false} FixedBudgetBatchesAreFull<F>(arrivals: seq<Arrival<F>>, size: nat)
    requires size >= 1 && forall i :: 0 <= i < |arrivals| ==> arrivals[i].budget == size
    ensures var s := Fed(arrivals);
            |s.waiting| < size && forall i :: 0 <= i < |s.decoded| ==> |s.decoded[i]| == size
  {
    if arrivals != [] { FixedBudgetBatchesAreFull(arrivals[..|arrivals| - 1], size); }
  }
}

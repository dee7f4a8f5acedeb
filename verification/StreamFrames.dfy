/** The frames of a stream and the service layer that makes every stream end with a terminal frame. */
module StreamFrames {

  datatype Kind = Audio | Done | Cancelled | Error | SegmentError | OtherKind

  /** `Frame` is a dictionary event; `decodable` says whether an audio frame carries data that can be decoded.
      `Raw` is anything else an engine may yield; the numbers tell frames apart. */
  datatype Chunk = Frame(kind: Kind, payload: nat, decodable: bool) | Raw(payload: nat)

  /** What an engine iterator does next: it yields, or it raises. It ends where the sequence of its events ends. */
  datatype Event = Yields(chunk: Chunk) | Raises

  const CANCELLED_FRAME := Frame(Cancelled, 0, true)
  const SHORT_STREAM_FRAME := Frame(SegmentError, 0, true)

  predicate IsTerminal(c: Chunk) {
    c.Frame? && (c.kind == Done || c.kind == Cancelled || c.kind == Error || c.kind == SegmentError)
  }

  predicate IsErrorFrame(c: Chunk) {
    c.Frame? && (c.kind == Error || c.kind == SegmentError)
  }

  predicate IsCancelledFrame(c: Chunk) {
    c.Frame? && c.kind == Cancelled
  }

  predicate HasTerminal(cs: seq<Chunk>) {
    exists i :: 0 <= i < |cs| && IsTerminal(cs[i])
  }

  predicate HasError(cs: seq<Chunk>) {
    exists i :: 0 <= i < |cs| && IsErrorFrame(cs[i])
  }

  /** The service iterator between two calls of `next`: the engine events still to come, whether a terminal frame
      was among those passed on, and whether the iterator is exhausted. */
  datatype Iter = Iter(events: seq<Event>, saw: bool, ended: bool)

  datatype NextResult = Yield(chunk: Chunk, iter: Iter) | End(iter: Iter) | Raise(iter: Iter)

  /** After the engine loop: a missing terminal frame is made up for. */
  function Repair(it: Iter, cancelled: bool): NextResult {
    var over := it.(ended := true);
    if it.saw then End(over) else Yield(if cancelled then CANCELLED_FRAME else SHORT_STREAM_FRAME, over)
  }

  /** One call of `next`; `cancelled` is what the cancel check reads during the call. */
  function Next(it: Iter, cancelled: bool): NextResult {
    if it.ended then End(it)
    else if it.events == [] then Repair(it, cancelled)
    else if it.events[0].Raises? then Raise(it.(ended := true))
    else if cancelled then Repair(it, true)
    else
      var c := it.events[0].chunk;
      Yield(c, it.(events := it.events[1..], saw := it.saw || IsTerminal(c)))
  }

  /** Cancel checks, numbered in the order in which they are made, once true stay true. */
  ghost predicate Monotone(cancel: nat -> bool) {
    forall i, j :: 0 <= i <= j && cancel(i) ==> cancel(j)
  }

  datatype Outcome = Outcome(frames: seq<Chunk>, raised: bool)

  /** All that an iterator yields when it is called until it ends or raises. */
  function Drain(it: Iter, cancel: nat -> bool, k: nat): Outcome
    decreases |it.events|, !it.ended
  {
    if it.ended then Outcome([], false)
    else
      match Next(it, cancel(k))
      case End(_) => Outcome([], false)
      case Raise(_) => Outcome([], true)
      case Yield(c, next) =>
        var rest := Drain(next, cancel, k + 1);
        rest.(frames := [c] + rest.frames)
  }

  function Start(events: seq<Event>): Iter {
    Iter(events, false, false)
  }

  ghost function Preceded(before: seq<Chunk>, o: Outcome): Outcome {
    o.(frames := before + o.frames)
  }

  lemma PassedOnOnce(before: seq<Chunk>, it: Iter, cancel: nat -> bool, k: nat)
    requires !it.ended && it.events != [] && it.events[0].Yields? && !cancel(k)
    ensures var c := it.events[0].chunk;
            Preceded(before, Drain(it, cancel, k))
            == Preceded(before + [c], Drain(Iter(it.events[1..], it.saw || IsTerminal(c), false), cancel, k + 1))
  {
    var c := it.events[0].chunk;
    var rest := Drain(Iter(it.events[1..], it.saw || IsTerminal(c), false), cancel, k + 1).frames;
    assert before + ([c] + rest) == before + [c] + rest;
  }

  /** `iter_frames`, with its two places that read the cancel check. */
  method IterFrames(events: seq<Event>, cancel: nat -> bool) returns (frames: seq<Chunk>, raised: bool)
    requires Monotone(cancel)
    ensures Outcome(frames, raised) == Drain(Start(events), cancel, 0)
  {
    frames, raised := [], false;
    var saw, k, i := false, 0, 0;
    ghost var all := Drain(Start(events), cancel, 0);
    while i < |events|
      invariant 0 <= i <= |events| && k == i
      invariant all == Preceded(frames, Drain(Iter(events[i..], saw, false), cancel, k))
    {
      assert events[i..][1..] == events[i + 1..];
      if events[i].Raises? {
        return frames, true;
      }
      var chunk := events[i].chunk;
      k := k + 1;
      if cancel(k - 1) { break; }
      PassedOnOnce(frames, Iter(events[i..], saw, false), cancel, k - 1);
      if chunk.Frame? && chunk.kind in {Done, Cancelled, Error, SegmentError} {
        saw := true;
      }
      frames := frames + [chunk];
      i := i + 1;
    }
    if !saw && cancel(k) {
      frames := frames + [CANCELLED_FRAME];
    } else if !saw {
      frames := frames + [SHORT_STREAM_FRAME];
    }
  }

  // ---------- what a caller may rely on ----------

  /** The engine's own frames up to where it raises. */
  function Chunks(events: seq<Event>): seq<Chunk> {
    if events == [] || events[0].Raises? then [] else [events[0].chunk] + Chunks(events[1..])
  }

  predicate RaisesSomewhere(events: seq<Event>) {
    Raises in events
  }

  lemma {:induction false} DrainHasTerminal(it: Iter, cancel: nat -> bool, k: nat)
    requires !it.ended && !Drain(it, cancel, k).raised
    ensures it.saw || HasTerminal(Drain(it, cancel, k).frames)
    decreases |it.events|
  {
    var o := Drain(it, cancel, k);
    match Next(it, cancel(k))
    case End(_) =>
    case Yield(c, next) =>
      if next.ended {
        assert IsTerminal(o.frames[0]);
      } else {
        var rest := Drain(next, cancel, k + 1).frames;
        DrainHasTerminal(next, cancel, k + 1);
        if IsTerminal(c) {
          assert IsTerminal(o.frames[0]);
        } else if !it.saw {
          var j :| 0 <= j < |rest| && IsTerminal(rest[j]);
          assert o.frames[j + 1] == rest[j];
        }
      }
  }

  /** Whatever the engine does, a stream that ends on its own has a terminal frame. */
  lemma EveryEndedStreamHasATerminalFrame(events: seq<Event>, cancel: nat -> bool)
    requires !Drain(Start(events), cancel, 0).raised
    ensures HasTerminal(Drain(Start(events), cancel, 0).frames)
  {
    DrainHasTerminal(Start(events), cancel, 0);
  }

  /** How many frames are passed on before a cancel check reads true. */
  function PassedOn(events: seq<Event>, cancel: nat -> bool, k: nat): (n: nat)
    ensures n <= |Chunks(events)|
    decreases |events|
  {
    if events == [] || events[0].Raises? || cancel(k) then 0 else 1 + PassedOn(events[1..], cancel, k + 1)
  }

  lemma {:induction false} DrainShape(it: Iter, cancel: nat -> bool, k: nat)
    requires !it.ended && Monotone(cancel)
    ensures var n := PassedOn(it.events, cancel, k);
            var engine := Chunks(it.events)[..n];
            var o := Drain(it, cancel, k);
            if o.raised then o.frames == engine
            else if it.saw || HasTerminal(engine) then o.frames == engine
            else o.frames == engine + [if cancel(k + n) then CANCELLED_FRAME else SHORT_STREAM_FRAME]
    decreases |it.events|
  {
    if it.events != [] && it.events[0].Yields? && !cancel(k) {
      var c := it.events[0].chunk;
      var next := it.(events := it.events[1..], saw := it.saw || IsTerminal(c));
      DrainShape(next, cancel, k + 1);
      var n := PassedOn(next.events, cancel, k + 1);
      var rest := Chunks(next.events)[..n];
      var engine := Chunks(it.events)[..n + 1];
      assert engine == [c] + rest;
      assert HasTerminal(engine) <==> IsTerminal(c) || HasTerminal(rest) by { HasTerminalCons(c, rest); }
    }
  }

  lemma HasTerminalCons(c: Chunk, rest: seq<Chunk>)
    ensures HasTerminal([c] + rest) <==> IsTerminal(c) || HasTerminal(rest)
  {
    var all := [c] + rest;
    assert all[0] == c;
    if HasTerminal(rest) {
      var j :| 0 <= j < |rest| && IsTerminal(rest[j]);
      assert all[j + 1] == rest[j];
    }
    if HasTerminal(all) && !IsTerminal(c) {
      var j :| 0 <= j < |all| && IsTerminal(all[j]);
      assert rest[j - 1] == all[j];
    }
  }

  /** The frames are those the engine yielded before a cancel check read true, unchanged and in order, and then one
      more exactly when none of them was terminal and the engine did not raise. */
  lemma EngineFramesThenAtMostOneRepair(events: seq<Event>, cancel: nat -> bool)
    requires Monotone(cancel)
    ensures var n := PassedOn(events, cancel, 0);
            var engine := Chunks(events)[..n];
            var o := Drain(Start(events), cancel, 0);
            && (forall j :: 0 <= j < n ==> !cancel(j)) && (n < |Chunks(events)| ==> cancel(n))
            && (o.raised || HasTerminal(engine) ==> o.frames == engine)
            && (!o.raised && !HasTerminal(engine) ==>
                  o.frames == engine + [if cancel(n) then CANCELLED_FRAME else SHORT_STREAM_FRAME])
  {
    DrainShape(Start(events), cancel, 0);
    PassedOnUncancelled(events, cancel, 0);
  }

  lemma {:induction false} PassedOnUncancelled(events: seq<Event>, cancel: nat -> bool, k: nat)
    ensures forall j :: k <= j < k + PassedOn(events, cancel, k) ==> !cancel(j)
    ensures PassedOn(events, cancel, k) < |Chunks(events)| ==> cancel(k + PassedOn(events, cancel, k))
    decreases |events|
  {
    if events != [] && events[0].Yields? && !cancel(k) { PassedOnUncancelled(events[1..], cancel, k + 1); }
  }

  /** A stream that is never cancelled and does not raise passes everything on, and is repaired only if it was
      truncated. */
  lemma UncancelledStreamIsComplete(events: seq<Event>)
    requires !RaisesSomewhere(events)
    ensures var o := Drain(Start(events), (k: nat) => false, 0);
            !o.raised
            && o.frames == Chunks(events) + (if HasTerminal(Chunks(events)) then [] else [SHORT_STREAM_FRAME])
            && |Chunks(events)| == |events|
  {
    var never := (k: nat) => false;
    DrainShape(Start(events), never, 0);
    PassesAll(events, never, 0);
    NoRaise(Start(events), never, 0);
    assert Chunks(events)[..|events|] == Chunks(events);
  }

  lemma {:induction false} PassesAll(events: seq<Event>, cancel: nat -> bool, k: nat)
    requires !RaisesSomewhere(events) && forall j: nat :: !cancel(j)
    ensures PassedOn(events, cancel, k) == |events| == |Chunks(events)|
    decreases |events|
  {
    if events != [] {
      assert events[0] in events;
      PassesAll(events[1..], cancel, k + 1);
    }
  }

  lemma {:induction false} NoRaise(it: Iter, cancel: nat -> bool, k: nat)
    requires !RaisesSomewhere(it.events)
    ensures !Drain(it, cancel, k).raised
    decreases |it.events|, !it.ended
  {
    if !it.ended {
      if it.events != [] { assert it.events[0] in it.events; }
      match Next(it, cancel(k))
      case End(_) =>
      case Yield(_, next) => NoRaise(next, cancel, k + 1);
    }
  }

  // ---------- a repair below the service ----------

  /** The forwarding of an isolated worker's events: unchanged, and repaired at the end unless they held a terminal
      frame or the request was cancelled. */
  function Forwarded(events: seq<Event>, cancelled: bool): seq<Event> {
    if RaisesSomewhere(events) || HasTerminal(Chunks(events)) || cancelled then events
    else events + [Yields(SHORT_STREAM_FRAME)]
  }

  method ForwardProcessStream(events: seq<Event>, cancelled: bool) returns (out: seq<Chunk>, raised: bool)
    ensures raised == RaisesSomewhere(events) && out == Chunks(Forwarded(events, cancelled))
  {
    out, raised := [], false;
    var sawDone, sawError := false, false;
    for i := 0 to |events|
      invariant out == Chunks(events[..i]) && |out| == i && Raises !in events[..i]
      invariant sawDone || sawError <==> HasTerminal(out)
    {
      if events[i].Raises? {
        ChunksUpToRaise(events, i);
        assert events[i] in events;
        return out, true;
      }
      ChunksUpToYield(events, i);
      var chunk := events[i].chunk;
      HasTerminalSnoc(out, chunk);
      if chunk.Frame? && chunk.kind == Done {
        sawDone := true;
      } else if chunk.Frame? && chunk.kind in {Error, SegmentError, Cancelled} {
        sawError := true;
      }
      out := out + [chunk];
      assert events[..i + 1] == events[..i] + [events[i]];
    }
    assert events[..|events|] == events;
    if !sawDone && !sawError && !cancelled {
      ChunksSnoc(events, SHORT_STREAM_FRAME);
      out := out + [SHORT_STREAM_FRAME];
    }
  }

  lemma {:induction false} ChunksSnoc(events: seq<Event>, c: Chunk)
    requires !RaisesSomewhere(events)
    ensures Chunks(events + [Yields(c)]) == Chunks(events) + [c]
  {
    if events == [] {
      assert events + [Yields(c)] == [Yields(c)];
      assert Chunks([Yields(c)]) == [c];
    } else {
      assert events[0] in events;
      assert (events + [Yields(c)])[1..] == events[1..] + [Yields(c)];
      ChunksSnoc(events[1..], c);
    }
  }

  lemma {:induction false} ChunksStop(before: seq<Event>, after: seq<Event>)
    requires !RaisesSomewhere(before) && after != [] && after[0].Raises?
    ensures Chunks(before + after) == Chunks(before)
  {
    if before == [] {
      assert before + after == after;
    } else {
      assert before[0] in before;
      assert (before + after)[1..] == before[1..] + after;
      ChunksStop(before[1..], after);
    }
  }

  lemma ChunksUpToRaise(events: seq<Event>, i: nat)
    requires i < |events| && !RaisesSomewhere(events[..i]) && events[i].Raises?
    ensures Chunks(events) == Chunks(events[..i])
  {
    var before, after := events[..i], events[i..];
    ChunksStop(before, after);
    assert before + after == events;
  }

  lemma ChunksUpToYield(events: seq<Event>, i: nat)
    requires i < |events| && !RaisesSomewhere(events[..i]) && events[i].Yields?
    ensures Chunks(events[..i + 1]) == Chunks(events[..i]) + [events[i].chunk]
  {
    var before := events[..i];
    ChunksSnoc(before, events[i].chunk);
    assert events[..i + 1] == before + [Yields(events[i].chunk)];
  }

  lemma HasTerminalSnoc(cs: seq<Chunk>, c: Chunk)
    ensures HasTerminal(cs + [c]) <==> HasTerminal(cs) || IsTerminal(c)
  {
    var all := cs + [c];
    assert all[|cs|] == c;
    if HasTerminal(cs) {
      var j :| 0 <= j < |cs| && IsTerminal(cs[j]);
      assert all[j] == cs[j];
    }
    if HasTerminal(all) && !IsTerminal(c) {
      var j :| 0 <= j < |all| && IsTerminal(all[j]);
      assert cs[j] == all[j];
    }
  }

  /** What is forwarded has a terminal frame unless the stream raised or was cancelled, and only what has none gets
      one. */
  lemma ForwardedHasATerminalFrame(events: seq<Event>, cancelled: bool)
    ensures !RaisesSomewhere(events) && !cancelled ==> HasTerminal(Chunks(Forwarded(events, cancelled)))
    ensures RaisesSomewhere(events) || cancelled || HasTerminal(Chunks(events)) ==>
              Forwarded(events, cancelled) == events
    ensures events <= Forwarded(events, cancelled) && |Forwarded(events, cancelled)| <= |events| + 1
  {
    if !RaisesSomewhere(events) { ChunksSnoc(events, SHORT_STREAM_FRAME); }
    HasTerminalSnoc(Chunks(events), SHORT_STREAM_FRAME);
  }

  /** The two layers together repair a stream once, not twice: a truncated one gains a single terminal frame. */
  lemma TwoLayersRepairOnce(events: seq<Event>)
    requires !RaisesSomewhere(events)
    ensures Drain(Start(Forwarded(events, false)), (k: nat) => false, 0).frames
         == Drain(Start(events), (k: nat) => false, 0).frames
  {
    UncancelledStreamIsComplete(events);
    if !HasTerminal(Chunks(events)) {
      var longer := events + [Yields(SHORT_STREAM_FRAME)];
      assert !RaisesSomewhere(longer);
      UncancelledStreamIsComplete(longer);
      ChunksSnoc(events, SHORT_STREAM_FRAME);
      HasTerminalSnoc(Chunks(events), SHORT_STREAM_FRAME);
    }
  }
}

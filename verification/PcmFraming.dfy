/** Cutting a stream of raw PCM bytes into the fixed-size frames an Opus encoder takes, when the stream has the layout
    the encoder expects. */
module PcmFraming {

  newtype byte = x: int | 0 <= x < 256

  type Bytes = seq<byte>

  /** A call of the encoder. */
  datatype Call = Call(frame: Bytes, endOfStream: bool)

  /** Bytes of an unfinished sample group, bytes of an unfinished frame, and the encoder calls made. */
  datatype State = State(source: Bytes, pcm: Bytes, calls: seq<Call>)

  /** Two bytes per sample, one or two channels; the encoder's frame size. */
  datatype Layout = Layout(group: nat, frameBytes: nat)

  predicate Sound(l: Layout) {
    l.group in {2, 4} && l.frameBytes > 0
  }

  const EMPTY := State([], [], [])

  /** The complete blocks of `n` bytes in front. */
  function Blocks(b: Bytes, n: nat): seq<Bytes>
    requires n > 0
    decreases |b|
  {
    if |b| < n then [] else [b[..n]] + Blocks(b[n..], n)
  }

  /** What is left behind them. */
  function Rest(b: Bytes, n: nat): (r: Bytes)
    requires n > 0
    ensures |r| < n && |r| <= |b|
    decreases |b|
  {
    if |b| < n then b else Rest(b[n..], n)
  }

  /** The bytes that make up complete sample groups. */
  function Whole(b: Bytes, n: nat): Bytes
    requires n > 0
  {
    b[..|b| - |Rest(b, n)|]
  }

  function Zeros(n: nat): Bytes {
    seq(n, _ => 0)
  }

  function MidCalls(frames: seq<Bytes>): seq<Call> {
    seq(|frames|, i requires 0 <= i < |frames| => Call(frames[i], false))
  }

  function Normalized(s: State, l: Layout, audio: Bytes): State
    requires Sound(l)
  {
    var all := s.source + audio;
    s.(source := Rest(all, l.group), pcm := s.pcm + Whole(all, l.group))
  }

  function Drained(s: State, l: Layout): State
    requires Sound(l)
  {
    s.(pcm := Rest(s.pcm, l.frameBytes), calls := s.calls + MidCalls(Blocks(s.pcm, l.frameBytes)))
  }

  function Pushed(s: State, l: Layout, audio: Bytes): State
    requires Sound(l)
  {
    Drained(Normalized(s, l, audio), l)
  }

  function Padded(frame: Bytes, n: nat): Bytes {
    if |frame| < n then frame + Zeros(n - |frame|) else frame
  }

  function Flushed(s: State, l: Layout, endOfStream: bool): State
    requires Sound(l)
  {
    if s.pcm == [] then s
    else s.(pcm := [], calls := s.calls + [Call(Padded(s.pcm, l.frameBytes), endOfStream)])
  }

  function PushedAll(s: State, l: Layout, chunks: seq<Bytes>): State
    requires Sound(l)
    decreases |chunks|
  {
    if chunks == [] then s else PushedAll(Pushed(s, l, chunks[0]), l, chunks[1..])
  }

  /** The audio of one text that an error breaks off: no flush, and only the group buffer is emptied at its start. */
  function BrokenOff(s: State, l: Layout, chunks: seq<Bytes>): State
    requires Sound(l)
  {
    PushedAll(s.(source := []), l, chunks)
  }

  /** The audio of one text: every chunk, then the two flushes. */
  function Streamed(s: State, l: Layout, chunks: seq<Bytes>): State
    requires Sound(l)
  {
    Flushed(BrokenOff(s, l, chunks).(source := []), l, false)
  }

  // ---------- blocks ----------

  lemma {:induction false} RestIsTheTail(b: Bytes, n: nat)
    requires n > 0
    ensures Rest(b, n) == b[|b| - |Rest(b, n)|..]
    decreases |b|
  {
    if |b| >= n { RestIsTheTail(b[n..], n); }
  }

  lemma {:induction false} RestOfPairs(b: Bytes)
    ensures |Rest(b, 2)| == |b| % 2
    decreases |b|
  {
    if |b| >= 2 { RestOfPairs(b[2..]); }
  }

  lemma {:induction false} RestOfFours(b: Bytes)
    ensures |Rest(b, 4)| == |b| % 4
    decreases |b|
  {
    if |b| >= 4 { RestOfFours(b[4..]); }
  }

  lemma UsableBytes(size: nat, n: nat, rest: nat)
    requires n in {2, 4} && rest == if n == 2 then size % 2 else size % 4
    ensures size / n * n == size - rest
  {
    if n == 2 { assert size / 2 * 2 == size - size % 2; } else { assert size / 4 * 4 == size - size % 4; }
  }

  lemma RestByDivision(b: Bytes, n: nat)
    requires n in {2, 4}
    ensures 0 <= |b| / n * n <= |b| && Rest(b, n) == b[|b| / n * n..] && Whole(b, n) == b[..|b| / n * n]
  {
    RestIsTheTail(b, n);
    if n == 2 { RestOfPairs(b); } else { RestOfFours(b); }
    UsableBytes(|b|, n, |Rest(b, n)|);
  }

  lemma {:induction false} BlocksOfSum(a: Bytes, b: Bytes, n: nat)
    requires n > 0
    ensures Blocks(a + b, n) == Blocks(a, n) + Blocks(Rest(a, n) + b, n)
    ensures Rest(a + b, n) == Rest(Rest(a, n) + b, n)
    decreases |a|
  {
    if |a| >= n {
      assert (a + b)[..n] == a[..n] && (a + b)[n..] == a[n..] + b;
      BlocksOfSum(a[n..], b, n);
    }
  }

  function Flatten(parts: seq<Bytes>): Bytes {
    if parts == [] then [] else parts[0] + Flatten(parts[1..])
  }

  lemma {:induction false} FlattenOne(parts: seq<Bytes>, p: Bytes)
    ensures Flatten(parts + [p]) == Flatten(parts) + p
  {
    if parts == [] {
      assert [] + [p] == [p] && Flatten([p]) == p;
    } else {
      assert (parts + [p])[1..] == parts[1..] + [p];
      FlattenOne(parts[1..], p);
    }
  }

  lemma {:induction false} BlocksAndRest(b: Bytes, n: nat)
    requires n > 0
    ensures Flatten(Blocks(b, n)) + Rest(b, n) == b && Flatten(Blocks(b, n)) == Whole(b, n)
    ensures forall i :: 0 <= i < |Blocks(b, n)| ==> |Blocks(b, n)[i]| == n
    decreases |b|
  {
    if |b| >= n {
      var first, more, rest := b[..n], Blocks(b[n..], n), Rest(b, n);
      BlocksAndRest(b[n..], n);
      assert Blocks(b, n) == [first] + more;
      assert Flatten([first] + more) == first + Flatten(more);
      RegroupBlocks(b, first, Flatten(more), rest);
    }
  }

  lemma RegroupBlocks(b: Bytes, first: Bytes, more: Bytes, rest: Bytes)
    requires |first| <= |b| && first == b[..|first|] && more + rest == b[|first|..]
    ensures first + more + rest == b && first + more == b[..|b| - |rest|]
  {
    assert first + (more + rest) == b;
    assert first + more + rest == first + (more + rest);
    assert (first + more + rest)[..|first + more|] == first + more;
  }

  lemma TakeOfSum(x: Bytes, y: Bytes, m: nat)
    requires m <= |y|
    ensures (x + y)[..|x| + m] == x + y[..m]
  {
  }

  lemma RegroupSum(a: Bytes, b: Bytes, x: Bytes, r: Bytes)
    requires a == x + r
    ensures a + b == x + (r + b)
  {
  }

  /** The whole groups of a sum: those of the first part, then those that its rest makes with the second. */
  lemma WholeOfSum(a: Bytes, b: Bytes, n: nat)
    requires n > 0
    ensures Whole(a + b, n) == Whole(a, n) + Whole(Rest(a, n) + b, n)
  {
    var x, r := Whole(a, n), Rest(a, n);
    BlocksAndRest(a, n);
    BlocksOfSum(a, b, n);
    RegroupSum(a, b, x, r);
    TakeOfSum(x, r + b, |r + b| - |Rest(r + b, n)|);
  }

  /** Less than a group and less than a frame are waiting, as between any two calls. */
  predicate Settled(s: State, l: Layout) {
    |s.source| < l.group && |s.pcm| < l.frameBytes
  }

  lemma NothingDrained(s: State, l: Layout)
    requires Sound(l) && |s.pcm| < l.frameBytes
    ensures Drained(s, l) == s
  {
    assert s.calls + MidCalls([]) == s.calls;
  }

  // ---------- the buffers ----------

  class PcmFramer {
    const layout: Layout
    var sourcePcmBuffer: Bytes
    var pcmBuffer: Bytes
    var calls: seq<Call>

    ghost function Contents(): State
      reads this
    {
      State(sourcePcmBuffer, pcmBuffer, calls)
    }

    constructor (layout: Layout)
      ensures this.layout == layout && Contents() == EMPTY
    {
      this.layout := layout;
      sourcePcmBuffer, pcmBuffer, calls := [], [], [];
    }

    method NormalizePcm(audio: Bytes) returns (raw: Bytes)
      requires Sound(layout)
      modifies this
      ensures var all := old(sourcePcmBuffer) + audio;
              raw == Whole(all, layout.group) && sourcePcmBuffer == Rest(all, layout.group)
      ensures pcmBuffer == old(pcmBuffer) && calls == old(calls)
    {
      RestByDivision(sourcePcmBuffer + audio, layout.group);
      if audio == [] {
        RestByDivision(sourcePcmBuffer, layout.group);
        assert sourcePcmBuffer + audio == sourcePcmBuffer;
      }
      sourcePcmBuffer := sourcePcmBuffer + audio;
      var usable := |sourcePcmBuffer| / layout.group * layout.group;
      if usable <= 0 { return []; }
      raw := sourcePcmBuffer[..usable];
      sourcePcmBuffer := sourcePcmBuffer[usable..];
    }

    method DrainPcmBuffer()
      requires Sound(layout)
      modifies this
      ensures Contents() == Drained(old(Contents()), layout)
    {
      var n := layout.frameBytes;
      ghost var all := old(calls) + MidCalls(Blocks(pcmBuffer, n));
      assert calls + MidCalls(Blocks(pcmBuffer, n)) == all;
      while |pcmBuffer| >= n
        invariant sourcePcmBuffer == old(sourcePcmBuffer)
        invariant calls + MidCalls(Blocks(pcmBuffer, n)) == all
        invariant Rest(pcmBuffer, n) == Rest(old(pcmBuffer), n)
        decreases |pcmBuffer|
      {
        var frame := pcmBuffer[..n];
        ghost var more := Blocks(pcmBuffer[n..], n);
        assert MidCalls([frame] + more) == [Call(frame, false)] + MidCalls(more);
        assert calls + ([Call(frame, false)] + MidCalls(more)) == calls + [Call(frame, false)] + MidCalls(more);
        pcmBuffer := pcmBuffer[n..];
        calls := calls + [Call(frame, false)];
      }
      assert MidCalls(Blocks(pcmBuffer, n)) == [];
    }

    method PushAudioBytes(audio: Bytes)
      requires Sound(layout) && Settled(Contents(), layout)
      modifies this
      ensures Contents() == Pushed(old(Contents()), layout, audio) && Settled(Contents(), layout)
    {
      NothingDrained(Contents(), layout);
      if audio == [] {
        assert sourcePcmBuffer + audio == sourcePcmBuffer && pcmBuffer + [] == pcmBuffer;
        return;
      }
      var normalized := NormalizePcm(audio);
      if normalized == [] {
        assert pcmBuffer + normalized == pcmBuffer;
        NothingDrained(Contents(), layout);
        return;
      }
      pcmBuffer := pcmBuffer + normalized;
      DrainPcmBuffer();
    }

    method FlushSourcePcmBuffer()
      modifies this`sourcePcmBuffer
      ensures sourcePcmBuffer == []
    {
      if sourcePcmBuffer == [] { return; }
      sourcePcmBuffer := [];
    }

    method FlushPcmBuffer(endOfStream: bool)
      requires Sound(layout)
      modifies this
      ensures Contents() == Flushed(old(Contents()), layout, endOfStream)
    {
      if pcmBuffer == [] { return; }
      var frame := pcmBuffer;
      pcmBuffer := [];
      if |frame| < layout.frameBytes { frame := frame + Zeros(layout.frameBytes - |frame|); }
      calls := calls + [Call(frame, endOfStream)];
    }

    /** One text: what the stream delivers up to where it ends, or up to an error event, which is raised before the
        buffers are flushed. */
    method StreamText(chunks: seq<Bytes>, error: bool) returns (raised: bool)
      requires Sound(layout) && Settled(Contents(), layout)
      modifies this
      ensures raised == error && Settled(Contents(), layout)
      ensures Contents() == if error then BrokenOff(old(Contents()), layout, chunks)
                            else Streamed(old(Contents()), layout, chunks)
    {
      sourcePcmBuffer := [];
      ghost var start := Contents();
      for i := 0 to |chunks|
        invariant Settled(Contents(), layout)
        invariant PushedAll(Contents(), layout, chunks[i..]) == PushedAll(start, layout, chunks)
      {
        assert chunks[i..][1..] == chunks[i + 1..];
        PushAudioBytes(chunks[i]);
      }
      if error { return true; }
      FlushSourcePcmBuffer();
      FlushPcmBuffer(false);
      return false;
    }
  }

  // ---------- the end of the stream ----------

  /** The calls from `n` on do not end the stream. */
  ghost predicate GoesOnFrom(calls: seq<Call>, n: nat) {
    forall i :: n <= i < |calls| ==> !calls[i].endOfStream
  }

  lemma PushGoesOn(s: State, l: Layout, audio: Bytes, n: nat)
    requires Sound(l) && GoesOnFrom(s.calls, n) && n <= |s.calls|
    ensures GoesOnFrom(Pushed(s, l, audio).calls, n) && n <= |Pushed(s, l, audio).calls|
    ensures s.calls <= Pushed(s, l, audio).calls
  {
  }

  lemma {:induction false} PushAllGoesOn(s: State, l: Layout, chunks: seq<Bytes>, n: nat)
    requires Sound(l) && GoesOnFrom(s.calls, n) && n <= |s.calls|
    ensures GoesOnFrom(PushedAll(s, l, chunks).calls, n) && n <= |PushedAll(s, l, chunks).calls|
    ensures s.calls <= PushedAll(s, l, chunks).calls
    decreases |chunks|
  {
    if chunks != [] {
      PushGoesOn(s, l, chunks[0], n);
      PushAllGoesOn(Pushed(s, l, chunks[0]), l, chunks[1..], n);
    }
  }

  /** No text ends the encoder's stream, whether it is complete or breaks off; the flush behind the last one does, with
      its one call, if there is anything left to encode. */
  lemma OnlyTheLastFlushEndsTheStream(s: State, l: Layout, chunks: seq<Bytes>)
    requires Sound(l)
    ensures GoesOnFrom(Streamed(s, l, chunks).calls, |s.calls|) && s.calls <= Streamed(s, l, chunks).calls
    ensures GoesOnFrom(BrokenOff(s, l, chunks).calls, |s.calls|) && s.calls <= BrokenOff(s, l, chunks).calls
    ensures var f := Flushed(s, l, true);
            if s.pcm == [] then f.calls == s.calls
            else |f.calls| == |s.calls| + 1 && s.calls <= f.calls && f.calls[|s.calls|].endOfStream
  {
    PushAllGoesOn(s.(source := []), l, chunks, |s.calls|);
  }

  // ---------- what framing guarantees ----------

  function FramesOf(calls: seq<Call>): seq<Bytes> {
    seq(|calls|, i requires 0 <= i < |calls| => calls[i].frame)
  }

  /** All complete frames of the bytes, and the remaining bytes padded with zeros to one more. */
  function Framed(b: Bytes, n: nat): seq<Bytes>
    requires n > 0
  {
    Blocks(b, n) + (if Rest(b, n) == [] then [] else [Padded(Rest(b, n), n)])
  }

  /** The buffers after `received` has come in, in whatever pieces; `left` was waiting before, and `earlier` are the
      calls made before. */
  ghost predicate Received(s: State, l: Layout, left: Bytes, earlier: seq<Call>, received: Bytes)
    requires Sound(l)
  {
    var whole := left + Whole(received, l.group);
    && s.source == Rest(received, l.group)
    && s.pcm == Rest(whole, l.frameBytes)
    && s.calls == earlier + MidCalls(Blocks(whole, l.frameBytes))
  }

  lemma MidCallsOfSum(a: seq<Bytes>, b: seq<Bytes>)
    ensures MidCalls(a + b) == MidCalls(a) + MidCalls(b)
  {
  }

  lemma PushReceives(s: State, l: Layout, left: Bytes, earlier: seq<Call>, received: Bytes, audio: Bytes)
    requires Sound(l) && Received(s, l, left, earlier, received)
    ensures Received(Pushed(s, l, audio), l, left, earlier, received + audio)
  {
    var n := l.frameBytes;
    var before, more := left + Whole(received, l.group), Whole(s.source + audio, l.group);
    WholeOfSum(received, audio, l.group);
    BlocksOfSum(received, audio, l.group);
    PadBehind(left, Whole(received, l.group), more);
    assert left + Whole(received + audio, l.group) == before + more;
    BlocksOfSum(before, more, n);
    CallsGrow(earlier, Blocks(before, n), Blocks(Rest(before, n) + more, n));
  }

  lemma CallsGrow(earlier: seq<Call>, x: seq<Bytes>, y: seq<Bytes>)
    ensures earlier + MidCalls(x) + MidCalls(y) == earlier + MidCalls(x + y)
  {
    MidCallsOfSum(x, y);
  }

  lemma PadBehind(x: Bytes, y: Bytes, z: Bytes)
    ensures x + (y + z) == x + y + z
  {
  }

  lemma {:induction false} PushAllReceives(s: State, l: Layout, left: Bytes, earlier: seq<Call>, received: Bytes,
                                           chunks: seq<Bytes>)
    requires Sound(l) && Received(s, l, left, earlier, received)
    ensures Received(PushedAll(s, l, chunks), l, left, earlier, received + Flatten(chunks))
    decreases |chunks|
  {
    if chunks == [] {
      assert received + [] == received;
    } else {
      PushReceives(s, l, left, earlier, received, chunks[0]);
      PushAllReceives(Pushed(s, l, chunks[0]), l, left, earlier, received + chunks[0], chunks[1..]);
      PadBehind(received, chunks[0], Flatten(chunks[1..]));
    }
  }

  lemma FramesOfMore(calls: seq<Call>, frames: seq<Bytes>)
    ensures FramesOf(calls + MidCalls(frames)) == FramesOf(calls) + frames
  {
  }

  lemma FlushFrames(s: State, l: Layout)
    requires Sound(l)
    ensures FramesOf(Flushed(s, l, false).calls)
         == FramesOf(s.calls) + (if s.pcm == [] then [] else [Padded(s.pcm, l.frameBytes)])
  {
    if s.pcm != [] {
      var last := Call(Padded(s.pcm, l.frameBytes), false);
      assert FramesOf(s.calls + [last]) == FramesOf(s.calls) + [last.frame];
    } else {
      assert FramesOf(s.calls) + [] == FramesOf(s.calls);
    }
  }

  lemma StartReceives(s: State, l: Layout)
    requires Sound(l) && Settled(s, l)
    ensures Received(s.(source := []), l, s.pcm, s.calls, [])
  {
    assert s.pcm + Whole([], l.group) == s.pcm;
    assert s.calls + MidCalls([]) == s.calls;
  }

  /** What a text has brought, flushed or not. */
  lemma TextReceives(s: State, l: Layout, chunks: seq<Bytes>)
    requires Sound(l) && Settled(s, l)
    ensures Received(BrokenOff(s, l, chunks), l, s.pcm, s.calls, Flatten(chunks))
  {
    StartReceives(s, l);
    PushAllReceives(s.(source := []), l, s.pcm, s.calls, [], chunks);
    assert [] + Flatten(chunks) == Flatten(chunks);
  }

  /** The frames of a text: what was waiting, then its whole sample groups, cut into frames; and nothing waits after
      it. */
  lemma FramesOfAText(s: State, l: Layout, chunks: seq<Bytes>)
    requires Sound(l) && Settled(s, l)
    ensures var t, all := Streamed(s, l, chunks), s.pcm + Whole(Flatten(chunks), l.group);
            FramesOf(t.calls) == FramesOf(s.calls) + Framed(all, l.frameBytes) && t.source == t.pcm == []
  {
    var all := s.pcm + Whole(Flatten(chunks), l.group);
    var u := BrokenOff(s, l, chunks).(source := []);
    TextReceives(s, l, chunks);
    FlushFrames(u, l);
    var blocks := Blocks(all, l.frameBytes);
    FramesOfMore(s.calls, blocks);
    var last := if Rest(all, l.frameBytes) == [] then [] else [Padded(Rest(all, l.frameBytes), l.frameBytes)];
    assert FramesOf(s.calls) + blocks + last == FramesOf(s.calls) + (blocks + last);
  }

  /** The frames that a text adds are those of its own bytes. */
  ghost predicate OwnFrames(s: State, l: Layout, chunks: seq<Bytes>)
    requires Sound(l)
  {
    FramesOf(Streamed(s, l, chunks).calls)
    == FramesOf(s.calls) + Framed(Whole(Flatten(chunks), l.group), l.frameBytes)
  }

  /** With nothing waiting before it, the frames of a text depend on its bytes only, not on how these were cut into
      chunks. */
  lemma FramesDependOnBytesOnly(s: State, l: Layout, chunks: seq<Bytes>)
    requires Sound(l) && s.pcm == [] && |s.source| < l.group
    ensures OwnFrames(s, l, chunks) && Streamed(s, l, chunks).source == Streamed(s, l, chunks).pcm == []
  {
    FramesOfAText(s, l, chunks);
    assert [] + Whole(Flatten(chunks), l.group) == Whole(Flatten(chunks), l.group);
  }

  /** And that is exactly when: every text gets its own frames if and only if nothing was waiting. */
  lemma OwnFramesExactlyWhenNothingWaits(s: State, l: Layout)
    requires Sound(l) && Settled(s, l)
    ensures (forall chunks :: OwnFrames(s, l, chunks)) <==> s.pcm == []
  {
    if s.pcm == [] {
      forall chunks ensures OwnFrames(s, l, chunks) { FramesDependOnBytesOnly(s, l, chunks); }
    } else {
      FramesOfAText(s, l, []);
      assert s.pcm + Whole([], l.group) == s.pcm;
      assert |Framed(s.pcm, l.frameBytes)| == 1 && |Framed(Whole([], l.group), l.frameBytes)| == 0;
      assert !OwnFrames(s, l, []);
    }
  }

  /** A text that an error broke off is continued by the next one: together they give the frames of their joined sample
      groups, so that the next text's frames begin with what was left of the first. */
  lemma BrokenTextLeadsTheNext(s: State, l: Layout, broken: seq<Bytes>, next: seq<Bytes>)
    requires Sound(l) && s.pcm == [] && |s.source| < l.group
    ensures var t := BrokenOff(s, l, broken);
            && t.pcm == Rest(Whole(Flatten(broken), l.group), l.frameBytes)
            && FramesOf(Streamed(t, l, next).calls)
               == FramesOf(s.calls)
                  + Framed(Whole(Flatten(broken), l.group) + Whole(Flatten(next), l.group), l.frameBytes)
  {
    var t, a, b := BrokenOff(s, l, broken), Whole(Flatten(broken), l.group), Whole(Flatten(next), l.group);
    TextReceives(s, l, broken);
    assert [] + a == a;
    FramesOfAText(t, l, next);
    FramesOfMore(s.calls, Blocks(a, l.frameBytes));
    FramedOfSum(FramesOf(s.calls), a, b, l.frameBytes);
  }

  lemma FramedOfSum(earlier: seq<Bytes>, a: Bytes, b: Bytes, n: nat)
    requires n > 0
    ensures earlier + Blocks(a, n) + Framed(Rest(a, n) + b, n) == earlier + Framed(a + b, n)
  {
    BlocksOfSum(a, b, n);
    var rest := Rest(a, n) + b;
    var last := if Rest(rest, n) == [] then [] else [Padded(Rest(rest, n), n)];
    assert Framed(a + b, n) == Blocks(a, n) + Blocks(rest, n) + last;
    Regrouped(earlier, Blocks(a, n), Blocks(rest, n), last);
  }

  lemma Regrouped(w: seq<Bytes>, x: seq<Bytes>, y: seq<Bytes>, z: seq<Bytes>)
    ensures w + x + (y + z) == w + (x + y + z)
  {
  }

  lemma FramesHaveTheSize(b: Bytes, n: nat)
    requires n > 0
    ensures forall i :: 0 <= i < |Framed(b, n)| ==> |Framed(b, n)[i]| == n
  {
    BlocksAndRest(b, n);
  }

  lemma JoinedWithLast(blocks: seq<Bytes>, whole: Bytes, rest: Bytes, pad: Bytes)
    requires Flatten(blocks) == whole
    ensures Flatten(blocks + [rest + pad]) == whole + rest + pad
  {
    FlattenOne(blocks, rest + pad);
    assert whole + (rest + pad) == whole + rest + pad;
  }

  function Padding(b: Bytes, n: nat): (size: nat)
    requires n > 0
    ensures size < n
  {
    if Rest(b, n) == [] then 0 else n - |Rest(b, n)|
  }

  /** Every frame has exactly the encoder's size, and joined they are the bytes followed by less than a frame of
      zeros. */
  lemma FramesAreTheBytesAndPadding(b: Bytes, n: nat)
    requires n > 0
    ensures forall i :: 0 <= i < |Framed(b, n)| ==> |Framed(b, n)[i]| == n
    ensures Flatten(Framed(b, n)) == b + Zeros(Padding(b, n))
  {
    FramesHaveTheSize(b, n);
    BlocksAndRest(b, n);
    if Rest(b, n) == [] {
      assert Framed(b, n) == Blocks(b, n);
      assert Flatten(Blocks(b, n)) + [] == b;
    } else {
      JoinedWithLast(Blocks(b, n), Whole(b, n), Rest(b, n), Zeros(Padding(b, n)));
    }
  }

  /** What the encoder gets for one text with equal layout and nothing waiting before it: whole frames that are the
      complete sample groups of the received bytes, then only zeros. */
  lemma EncoderGetsTheWholeSamples(s: State, l: Layout, chunks: seq<Bytes>)
    requires Sound(l) && s.pcm == [] && |s.source| < l.group
    ensures var whole := Whole(Flatten(chunks), l.group);
            var frames := Framed(whole, l.frameBytes);
            && FramesOf(Streamed(s, l, chunks).calls) == FramesOf(s.calls) + frames
            && (forall i :: 0 <= i < |frames| ==> |frames[i]| == l.frameBytes)
            && whole <= Flatten(frames) && |Flatten(frames)| < |whole| + l.frameBytes
            && (forall i :: |whole| <= i < |Flatten(frames)| ==> Flatten(frames)[i] == 0)
            && |Flatten(chunks)| - |whole| < l.group && whole <= Flatten(chunks)
  {
    FramesDependOnBytesOnly(s, l, chunks);
    FramesAreTheBytesAndPadding(Whole(Flatten(chunks), l.group), l.frameBytes);
  }
}

/** The whole way of a streamed item: from the engine in the worker process through the result queue, the forwarding
    layer, the service iterator, the producer thread and the send loop to the WebSocket client. */
module WorkerToClient {
  import W = WorkerProtocol
  import WP = WorkerProtocolProofs
  import opened StreamFrames
  import S = WsSession
  import D = WsDelivery

  /** How an item of the worker's queue looks to the layers above; what can be decoded is up to its data. */
  type Wire = W.Item -> Chunk

  function KindOf(kind: W.EventKind): Kind {
    match kind
    case AudioKind => Audio
    case DoneKind => Done
    case CancelledKind => Cancelled
    case ErrorKind => Error
    case SegmentErrorKind => SegmentError
    case StartedKind => OtherKind
    case OtherKind => OtherKind
  }

  /** A dictionary stays a dictionary of its type, and anything else stays something else. */
  ghost predicate KeepsKinds(wire: Wire) {
    forall item: W.Item ::
      if item.Raw? then wire(item).Raw? else wire(item).Frame? && wire(item).kind == KindOf(item.kind)
  }

  function Frames(items: seq<W.Item>, wire: Wire): (frames: seq<Chunk>)
    ensures |frames| == |items| && forall i :: 0 <= i < |items| ==> frames[i] == wire(items[i])
  {
    seq(|items|, i requires 0 <= i < |items| => wire(items[i]))
  }

  /** What the process client's iterator does next: it yields the items, and at the end it may raise. */
  function Events(items: seq<W.Item>, wire: Wire, raises: bool): seq<Event> {
    Yielding(Frames(items, wire)) + (if raises then [Raises] else [])
  }

  function Yielding(frames: seq<Chunk>): (events: seq<Event>)
    ensures |events| == |frames| && forall i :: 0 <= i < |frames| ==> events[i] == Yields(frames[i])
  {
    seq(|frames|, i requires 0 <= i < |frames| => Yields(frames[i]))
  }

  lemma TerminalsAgree(items: seq<W.Item>, wire: Wire)
    requires KeepsKinds(wire)
    ensures HasTerminal(Frames(items, wire)) <==> W.HasTerminal(items)
  {
    assert forall item: W.Item :: IsTerminal(wire(item)) <==> W.IsTerminal(item);
    var frames := Frames(items, wire);
    if W.HasTerminal(items) {
      var i :| 0 <= i < |items| && W.IsTerminal(items[i]);
      assert IsTerminal(frames[i]);
    }
    if HasTerminal(frames) {
      var i :| 0 <= i < |frames| && IsTerminal(frames[i]);
      assert W.IsTerminal(items[i]);
    }
  }

  lemma {:induction false} ChunksOfYielding(frames: seq<Chunk>, more: seq<Event>)
    requires more == [] || more == [Raises]
    ensures Chunks(Yielding(frames) + more) == frames
  {
    var events := Yielding(frames) + more;
    if frames != [] {
      ChunksOfYielding(frames[1..], more);
      assert events[1..] == Yielding(frames[1..]) + more && frames == [frames[0]] + frames[1..];
    }
  }

  /** What a producer puts for some frames, with a raise behind them or not. */
  lemma {:induction false} OutputOf(frames: seq<Chunk>, raises: bool, saw: bool)
    ensures var more := if raises then [Raises] else [];
            D.Output(Iter(Yielding(frames) + more, saw, false)) ==
            frames + (if raises then [S.FAILURE_FRAME]
                      else if saw || HasTerminal(frames) then [] else [SHORT_STREAM_FRAME])
  {
    var more := if raises then [Raises] else [];
    var events := Yielding(frames) + more;
    if frames == [] {
      assert events == more;
    } else {
      var c, rest := frames[0], frames[1..];
      OutputOf(rest, raises, saw || IsTerminal(c));
      HasTerminalCons(c, rest);
      assert events[1..] == Yielding(rest) + more && frames == [c] + rest;
    }
  }

  lemma ProducedOf(items: seq<W.Item>, wire: Wire, raises: bool)
    requires KeepsKinds(wire) && (raises || W.HasTerminal(items))
    ensures D.Produced(Events(items, wire, raises)) ==
            Frames(items, wire) + (if raises then [S.FAILURE_FRAME] else [])
  {
    OutputOf(Frames(items, wire), raises, false);
    TerminalsAgree(items, wire);
  }

  /** The forwarding layer has nothing to repair. */
  lemma ForwardedAsIs(items: seq<W.Item>, wire: Wire, raises: bool, cancelled: bool)
    requires KeepsKinds(wire) && (raises || W.HasTerminal(items))
    ensures Forwarded(Events(items, wire, raises), cancelled) == Events(items, wire, raises)
  {
    TerminalsAgree(items, wire);
    var more := if raises then [Raises] else [];
    ChunksOfYielding(Frames(items, wire), more);
    assert raises ==> Events(items, wire, raises)[|items|] == Raises;
  }

  /** All of these frames, up to a first cancelled one, once the session is over; a beginning of them before. */
  ghost predicate ClientGets(x: S.Sys, frames: seq<Chunk>) {
    && x.session.sent <= frames
    && (x.stage == S.Over ==>
          && x.session.sent == D.UpToCancelled(frames) && HasTerminal(x.session.sent)
          && x.session.okCount + x.session.errorCount == 1
          && (x.session.errorCount == 1 <==> HasError(x.session.sent)))
  }

  /** What the layers above the process client make of what that yields. */
  lemma SessionGets(items: seq<W.Item>, wire: Wire, raises: bool, cancelled: bool, binary: bool,
                    session: seq<S.Action>)
    requires KeepsKinds(wire) && (raises || W.HasTerminal(items)) && D.AllCalm(session)
    requires D.NoBadAudio(binary, Frames(items, wire))
    ensures ClientGets(S.Run(Forwarded(Events(items, wire, raises), cancelled), binary, session),
                       Frames(items, wire) + (if raises then [S.FAILURE_FRAME] else []))
  {
    var frames := Frames(items, wire) + (if raises then [S.FAILURE_FRAME] else []);
    ForwardedAsIs(items, wire, raises, cancelled);
    ProducedOf(items, wire, raises);
    assert D.NoBadAudio(binary, frames);
    D.UndisturbedStreamArrives(Events(items, wire, raises), binary, session);
  }

  /** The stream of this request ran to its end, and nobody wrote a cancellation for it. */
  ghost predicate RanToItsEnd(s: W.Sys, id: nat) {
    && id in s.log.ended && s.log.ended[id] == W.Completed
    && id in s.link.issued && s.link.issued[id].Stream? && s.link.issued[id].gen !in s.log.written
  }

  /** An undisturbed session whose engine runs in a worker process: in every interleaving of the two processes, and of
      the session's tasks, the client gets exactly the items of the engine, in order, up to a first cancelled frame,
      with the child's repair behind them if none of them was terminal; no layer repairs a second time, and the request
      is counted once, as an error exactly if the client got an error frame. */
  lemma FromEngineToClient(worker: seq<W.Action>, id: nat, wire: Wire, cancelled: bool, binary: bool,
                           session: seq<S.Action>)
    requires KeepsKinds(wire) && RanToItsEnd(W.Run(worker), id) && D.AllCalm(session)
    requires D.NoBadAudio(binary, Frames(W.Repaired(W.Known(W.Run(worker).log.produced, id)), wire))
    ensures var log := W.Run(worker).log;
            var events := Forwarded(Events(W.Known(log.yielded, id), wire, false), cancelled);
            ClientGets(S.Run(events, binary, session), Frames(W.Repaired(W.Known(log.produced, id)), wire))
  {
    WP.UncancelledStreamEndToEnd(worker, id);
    var items := W.Known(W.Run(worker).log.yielded, id);
    SessionGets(items, wire, false, cancelled, binary, session);
    assert Frames(items, wire) + [] == Frames(items, wire);
  }

  /** A stream that raises below, wherever and however: the client gets a beginning of what the worker queued under its
      id and then one error frame, and the request is counted as an error unless a cancelled frame came before that. */
  lemma FailureReachesTheClient(worker: seq<W.Action>, id: nat, wire: Wire, cancelled: bool, binary: bool,
                                session: seq<S.Action>)
    requires KeepsKinds(wire) && D.AllCalm(session) && id in W.Run(worker).log.yielded
    requires D.NoBadAudio(binary, Frames(W.Known(W.Run(worker).log.yielded, id), wire))
    ensures var s := W.Run(worker);
            var items := W.Known(s.log.yielded, id);
            && items <= W.Items(W.Of(s.link.queued, id))
            && ClientGets(S.Run(Forwarded(Events(items, wire, true), cancelled), binary, session),
                          Frames(items, wire) + [S.FAILURE_FRAME])
  {
    WP.YieldsAreAPrefixOfTheOwnEvents(worker, id);
    SessionGets(W.Known(W.Run(worker).log.yielded, id), wire, true, cancelled, binary, session);
  }
}

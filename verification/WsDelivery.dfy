/** What the client of a streaming session receives: everything, if nobody interferes; hardly more, after a cancel. */
module WsDelivery {
  import opened StreamFrames
  import opened WsSession

  // ---------- after the cancellation notice ----------

  predicate NoticeNext(queue: seq<Item>) {
    queue != [] && queue[0] == Delivery(CANCELLED_FRAME)
  }

  ghost predicate NoticeHolds(s: Session, sender: Sender) {
    s.notified ==>
      && s.noticeAt <= |s.sent| <= s.noticeAt + 2
      && (|s.sent| == s.noticeAt + 2 ==> sender.Ended? && s.sent[s.noticeAt + 1] == CANCELLED_FRAME)
      && match sender
         case Waiting => NoticeNext(s.queue)
         case Delivering(c) => c == CANCELLED_FRAME || (|s.sent| == s.noticeAt && NoticeNext(s.queue))
         case Ended => true
  }

  lemma PutKeepsNotice(x: Sys)
    requires NoticeHolds(x.session, x.sender)
    ensures NoticeHolds(PutLandsStep(x).session, x.sender)
  {
    if CanPut(x) && x.session.queue != [] {
      assert (x.session.queue + [InHand(x.producer)])[0] == x.session.queue[0];
    }
  }

  lemma NotifyKeepsNotice(s: Session, sender: Sender)
    requires NoticeHolds(s, sender)
    ensures NoticeHolds(NotifyCancelled(s), sender) && NoticeHolds(MarkClientCancelled(s), sender)
  {
  }

  lemma TakeKeepsNotice(x: Sys)
    requires NoticeHolds(x.session, x.sender)
    ensures var y := TakeStep(x); NoticeHolds(y.session, y.sender)
  {
    if x.sender.Waiting? && x.session.notified {
      var y := TakeStep(x);
      assert y.sender == Delivering(CANCELLED_FRAME);
      assert y.session.sent == x.session.sent && y.session.noticeAt == x.session.noticeAt;
    }
  }

  lemma DeliverKeepsNotice(x: Sys, ok: bool)
    requires NoticeHolds(x.session, x.sender)
    ensures var y := DeliverStep(x, ok); NoticeHolds(y.session, y.sender)
  {
  }

  lemma EndingKeepsNotice(x: Sys, a: Action)
    requires NoticeHolds(x.session, x.sender)
    requires a.IdleTimeout? || a.WaitingNoticeFails? || a.CloseDown? || a.Conclude?
    ensures var y := TaskStep(x, a); NoticeHolds(y.session, y.sender)
  {
  }

  lemma StepKeepsNotice(x: Sys, a: Action)
    requires NoticeHolds(x.session, x.sender)
    ensures var y := Step(x, a); NoticeHolds(y.session, y.sender)
  {
    if !a.ExternalCancel? && x.stage != NotStarted {
      match a
      case PutLands => PutKeepsNotice(x);
      case Notice => NotifyKeepsNotice(x.session, x.sender);
      case ClientCancels => NotifyKeepsNotice(x.session, x.sender);
      case Take => TakeKeepsNotice(x);
      case Deliver(ok) => DeliverKeepsNotice(x, ok);
      case IdleTimeout => EndingKeepsNotice(x, a);
      case WaitingNoticeFails => EndingKeepsNotice(x, a);
      case CloseDown => EndingKeepsNotice(x, a);
      case Conclude => EndingKeepsNotice(x, a);
      case Pull =>
      case Offer =>
      case PutFails =>
      case FinishProducer(_) =>
      case _ =>
    }
  }

  lemma {:induction false} NoticeHoldsAlways(events: seq<Event>, binary: bool, actions: seq<Action>)
    ensures var x := Run(events, binary, actions); NoticeHolds(x.session, x.sender)
  {
    if actions != [] {
      var before := actions[..|actions| - 1];
      NoticeHoldsAlways(events, binary, before);
      StepKeepsNotice(Run(events, binary, before), actions[|actions| - 1]);
    }
  }

  /** Once the cancellation notice is queued, the client gets at most the one chunk that was being sent, and after it
      nothing but the notice. */
  lemma HardlyAnythingAfterACancel(events: seq<Event>, binary: bool, actions: seq<Action>)
    ensures var s := Run(events, binary, actions).session;
            s.notified ==> |s.sent| <= s.noticeAt + 2
                           && (|s.sent| == s.noticeAt + 2 ==> s.sent[s.noticeAt + 1] == CANCELLED_FRAME)
  {
    NoticeHoldsAlways(events, binary, actions);
  }

  // ---------- when nobody interferes ----------

  /** Nobody cancels, no put or send fails, and the client is not kept waiting too long. */
  predicate Calm(a: Action) {
    !(|| a.PutFails? || a.ClientCancels? || a.ExternalCancel? || a.IdleTimeout? || a.WaitingNoticeFails?
      || a == Deliver(false))
  }

  ghost predicate AllCalm(actions: seq<Action>) {
    forall i :: 0 <= i < |actions| ==> Calm(actions[i])
  }

  ghost predicate NoBadAudio(binary: bool, cs: seq<Chunk>) {
    forall i :: 0 <= i < |cs| ==> !BadAudio(binary, cs[i])
  }

  /** What the producer still puts, starting from the service iterator. */
  function Output(it: Iter): seq<Chunk>
    decreases |it.events|, !it.ended
  {
    match Next(it, false)
    case Yield(c, next) => [c] + Output(next)
    case Raise(_) => [FAILURE_FRAME]
    case End(_) => []
  }

  /** The chunks of an undisturbed stream. */
  function Produced(events: seq<Event>): seq<Chunk> {
    Output(Start(events))
  }

  lemma {:induction false} OutputIsDrain(it: Iter, never: nat -> bool, k: nat)
    requires !it.ended && forall j: nat :: !never(j)
    ensures var o := Drain(it, never, k); Output(it) == o.frames + (if o.raised then [FAILURE_FRAME] else [])
    decreases |it.events|
  {
    match Next(it, false)
    case Yield(c, next) =>
      if next.ended {
        assert Output(next) == [] && Drain(next, never, k + 1) == Outcome([], false);
      } else {
        OutputIsDrain(next, never, k + 1);
        var rest := Drain(next, never, k + 1);
        assert [c] + (rest.frames + (if rest.raised then [FAILURE_FRAME] else []))
            == [c] + rest.frames + (if rest.raised then [FAILURE_FRAME] else []);
      }
    case Raise(_) =>
    case End(_) =>
  }

  lemma ProducedHasTerminal(events: seq<Event>)
    ensures HasTerminal(Produced(events))
  {
    var never := (k: nat) => false;
    OutputIsDrain(Start(events), never, 0);
    var o := Drain(Start(events), never, 0);
    var all := Produced(events);
    if o.raised {
      assert IsTerminal(all[|all| - 1]);
    } else {
      EveryEndedStreamHasATerminalFrame(events, never);
      assert all == o.frames;
    }
  }

  function Queued(queue: seq<Item>): seq<Chunk> {
    if queue == [] then []
    else (if queue[0].Delivery? then [queue[0].chunk] else []) + Queued(queue[1..])
  }

  lemma {:induction false} QueuedGrows(queue: seq<Item>, item: Item)
    ensures Queued(queue + [item]) == Queued(queue) + (if item.Delivery? then [item.chunk] else [])
  {
    if queue == [] {
      assert queue + [item] == [item];
    } else {
      var first := if queue[0].Delivery? then [queue[0].chunk] else [];
      var last := if item.Delivery? then [item.chunk] else [];
      var rest := queue[1..];
      QueuedGrows(rest, item);
      assert (queue + [item])[0] == queue[0] && (queue + [item])[1..] == rest + [item];
      assert Queued(queue + [item]) == first + Queued(rest + [item]);
      assert first + (Queued(rest) + last) == first + Queued(rest) + last;
    }
  }

  function ToCome(p: Producer): seq<Chunk> {
    match p
    case Pulling(it) => Output(it)
    case Got(c, it) => [c] + Output(it)
    case Putting(c, it) => [c] + Output(it)
    case Failed => [FAILURE_FRAME]
    case PuttingFailure => [FAILURE_FRAME]
    case _ => []
  }

  function InTransit(x: Sys): seq<Chunk> {
    Queued(x.session.queue) + ToCome(x.producer)
  }

  /** The first cancelled frame of a stream is the last that is sent. */
  function UpToCancelled(cs: seq<Chunk>): seq<Chunk> {
    if cs == [] then [] else if IsCancelledFrame(cs[0]) then [cs[0]] else [cs[0]] + UpToCancelled(cs[1..])
  }

  ghost predicate NoCancelled(cs: seq<Chunk>) {
    forall i :: 0 <= i < |cs| ==> !IsCancelledFrame(cs[i])
  }

  lemma {:induction false} UpToCancelledStops(before: seq<Chunk>, c: Chunk, after: seq<Chunk>)
    requires NoCancelled(before) && IsCancelledFrame(c)
    ensures UpToCancelled(before + [c] + after) == before + [c]
  {
    if before == [] {
      assert [] + [c] + after == [c] + after;
    } else {
      assert (before + [c] + after)[1..] == before[1..] + [c] + after;
      UpToCancelledStops(before[1..], c, after);
      assert before + [c] == [before[0]] + (before[1..] + [c]);
    }
  }

  lemma {:induction false} UpToCancelledTakesAll(cs: seq<Chunk>)
    requires NoCancelled(cs)
    ensures UpToCancelled(cs) == cs
  {
    if cs != [] { UpToCancelledTakesAll(cs[1..]); }
  }

  /** Nobody has cancelled anything. */
  ghost predicate Untouched(x: Sys) {
    !IsCancelled(x.session) && !x.session.cancelledByClient && !x.session.notified && x.notices == 0
  }

  /** The done marker is behind everything else, and in the queue once the producer is gone. */
  ghost predicate MarkerIsLast(x: Sys) {
    && (forall i :: 0 <= i < |x.session.queue| && x.session.queue[i].DoneMarker? ==>
          i == |x.session.queue| - 1 && x.producer == Gone)
    && (x.producer == Gone && !x.sender.Ended? ==>
          x.session.queue != [] && x.session.queue[|x.session.queue| - 1].DoneMarker?)
  }

  ghost predicate SeenExactly(x: Sys) {
    && (x.session.sawTerminal <==> HasTerminal(Reached(x)))
    && (x.session.sawError <==> HasError(Reached(x)))
  }

  /** Nothing is lost, doubled or moved on the way from the engine to the client. */
  ghost predicate Conserved(x: Sys, all: seq<Chunk>) {
    && Reached(x) + InTransit(x) == all
    && (x.sender.Ended? ==> x.session.sent == UpToCancelled(all))
    && (!x.sender.Ended? ==> NoCancelled(x.session.sent))
  }

  ghost predicate Counted(x: Sys) {
    x.stage == Over ==> (x.session.okCount == 1 <==> !x.session.sawError)
  }

  ghost predicate Undisturbed(x: Sys, all: seq<Chunk>) {
    && Agrees(x) && Untouched(x) && MarkerIsLast(x) && SeenExactly(x) && Conserved(x, all) && Counted(x)
  }

  ghost predicate Fair(all: seq<Chunk>, binary: bool) {
    HasTerminal(all) && NoBadAudio(binary, all)
  }

  lemma {:induction false} UpToCancelledHasTerminal(cs: seq<Chunk>)
    requires HasTerminal(cs)
    ensures HasTerminal(UpToCancelled(cs))
  {
    var rest := cs[1..];
    HasTerminalCons(cs[0], rest);
    assert [cs[0]] + rest == cs;
    if IsCancelledFrame(cs[0]) {
      assert IsTerminal(UpToCancelled(cs)[0]);
    } else if IsTerminal(cs[0]) {
      assert IsTerminal(UpToCancelled(cs)[0]);
    } else {
      UpToCancelledHasTerminal(rest);
      HasTerminalCons(cs[0], UpToCancelled(rest));
    }
  }

  /** A producer step that moves nothing into the queue. */
  lemma ThinkingKeeps(x: Sys, y: Sys, all: seq<Chunk>)
    requires Undisturbed(x, all) && OnlyProducerMoved(x, y) && y.session == x.session && y.notices == x.notices
    requires ToCome(y.producer) == ToCome(x.producer) && (y.producer == Gone <==> x.producer == Gone)
    ensures Undisturbed(y, all)
  {
    ProducerAgrees(x, y);
  }

  lemma PutKeeps(x: Sys, all: seq<Chunk>)
    requires Undisturbed(x, all)
    ensures Undisturbed(PutLandsStep(x), all)
  {
    if CanPut(x) {
      var y := PutLandsStep(x);
      var item := InHand(x.producer);
      ProducerAgrees(x, y);
      QueuedGrows(x.session.queue, item);
      assert ToCome(x.producer) == (if item.Delivery? then [item.chunk] else []) + ToCome(y.producer);
      assert InTransit(y) == InTransit(x);
    }
  }

  lemma TakeMarkerKeeps(x: Sys, all: seq<Chunk>)
    requires Undisturbed(x, all) && HasTerminal(all)
    requires x.sender.Waiting? && x.session.queue != [] && x.session.queue[0].DoneMarker?
    ensures x.session.sawTerminal && InTransit(x) == [] && x.session.sent == all == UpToCancelled(all)
  {
    assert x.session.queue == [DoneMarker];
    assert Queued(x.session.queue[1..]) == [];
    assert Reached(x) == x.session.sent;
    assert x.session.sent == Reached(x) + InTransit(x);
    UpToCancelledTakesAll(all);
  }

  lemma TakeChunkKeeps(x: Sys, all: seq<Chunk>)
    requires Undisturbed(x, all)
    requires x.sender.Waiting? && x.session.queue != [] && x.session.queue[0].Delivery?
    requires !BadAudio(x.binary, x.session.queue[0].chunk)
    ensures var y := TakeStep(x);
            MarkerIsLast(y) && SeenExactly(y) && Reached(y) + InTransit(y) == all
  {
    var c := x.session.queue[0].chunk;
    var y := TakeStep(x);
    ReachedGrows(x.session.sent, c);
    assert Reached(x) == x.session.sent && Reached(y) == x.session.sent + [c];
    assert InTransit(x) == [c] + InTransit(y);
    assert Reached(y) + InTransit(y) == Reached(x) + InTransit(x);
  }

  lemma NextIsFair(x: Sys, all: seq<Chunk>)
    requires Undisturbed(x, all) && Fair(all, x.binary)
    requires x.sender.Waiting? && x.session.queue != [] && x.session.queue[0].Delivery?
    ensures !BadAudio(x.binary, x.session.queue[0].chunk)
  {
    assert InTransit(x)[0] == x.session.queue[0].chunk;
    assert all[|Reached(x)|] == x.session.queue[0].chunk;
  }

  lemma TakeKeeps(x: Sys, all: seq<Chunk>)
    requires Undisturbed(x, all) && Fair(all, x.binary) && x.stage != NotStarted
    ensures Undisturbed(TakeStep(x), all)
  {
    if x.sender.Waiting? && x.session.queue != [] {
      TakeAgrees(x);
      if x.session.queue[0].DoneMarker? {
        TakeMarkerKeeps(x, all);
      } else {
        NextIsFair(x, all);
        TakeChunkKeeps(x, all);
      }
    }
  }

  lemma InHandIsFair(x: Sys, all: seq<Chunk>)
    requires Undisturbed(x, all) && Fair(all, x.binary) && x.sender.Delivering?
    ensures !BadAudio(x.binary, x.sender.chunk)
  {
    assert all[|x.session.sent|] == x.sender.chunk;
  }

  lemma DeliverKeeps(x: Sys, all: seq<Chunk>)
    requires Undisturbed(x, all) && Fair(all, x.binary) && x.stage != NotStarted
    ensures Undisturbed(DeliverStep(x, true), all)
  {
    if x.sender.Delivering? {
      var y := DeliverStep(x, true);
      var c := x.sender.chunk;
      DeliverAgrees(x, true);
      InHandIsFair(x, all);
      assert Reached(y) == y.session.sent == x.session.sent + [c] == Reached(x);
      if IsCancelledFrame(c) { UpToCancelledStops(x.session.sent, c, InTransit(x)); }
    }
  }

  lemma ClosingKeeps(x: Sys, a: Action, all: seq<Chunk>)
    requires Undisturbed(x, all) && Fair(all, x.binary) && x.stage != NotStarted && (a.CloseDown? || a.Conclude?)
    ensures Undisturbed(TaskStep(x, a), all)
  {
    CloseAgrees(x, a);
    if x.sender.Ended? {
      UpToCancelledHasTerminal(all);
      assert Reached(x) == x.session.sent;
    }
  }

  lemma PullKeeps(x: Sys, all: seq<Chunk>)
    requires Undisturbed(x, all) && x.producer.Pulling?
    ensures Undisturbed(PullStep(x), all)
  {
    ThinkingKeeps(x, PullStep(x), all);
  }

  lemma BeginKeeps(x: Sys, a: Action, all: seq<Chunk>)
    requires Undisturbed(x, all) && x.stage == NotStarted && !a.ExternalCancel?
    ensures Undisturbed(Step(x, a), all)
  {
    StepAgrees(x, a);
  }

  lemma StepKeeps(x: Sys, a: Action, all: seq<Chunk>)
    requires Undisturbed(x, all) && Fair(all, x.binary) && Calm(a)
    ensures Undisturbed(Step(x, a), all)
  {
    if x.stage == NotStarted {
      BeginKeeps(x, a, all);
    } else {
      assert Step(x, a) == TaskStep(x, a);
      match a
      case Pull => if x.producer.Pulling? { PullKeeps(x, all); }
      case Offer => ThinkingKeeps(x, OfferStep(x), all);
      case PutLands => PutKeeps(x, all);
      case FinishProducer(scheduled) => ThinkingKeeps(x, FinishProducerStep(x, scheduled), all);
      case Take => TakeKeeps(x, all);
      case Deliver(_) => DeliverKeeps(x, all);
      case CloseDown => ClosingKeeps(x, a, all);
      case Conclude => ClosingKeeps(x, a, all);
      case Begin =>
      case Notice =>
    }
  }

  lemma StartKeeps(events: seq<Event>, binary: bool)
    ensures Undisturbed(Init(events, binary), Produced(events))
  {
    var x := Init(events, binary);
    assert Reached(x) == [] && InTransit(x) == [] + Produced(events);
  }

  lemma {:induction false} BinaryIsFixed(events: seq<Event>, binary: bool, actions: seq<Action>)
    ensures Run(events, binary, actions).binary == binary
  {
    if actions != [] { BinaryIsFixed(events, binary, actions[..|actions| - 1]); }
  }

  lemma {:induction false} RunKeeps(events: seq<Event>, binary: bool, actions: seq<Action>)
    requires AllCalm(actions) && NoBadAudio(binary, Produced(events))
    ensures Undisturbed(Run(events, binary, actions), Produced(events))
  {
    if actions == [] {
      StartKeeps(events, binary);
    } else {
      var before := actions[..|actions| - 1];
      RunKeeps(events, binary, before);
      BinaryIsFixed(events, binary, before);
      ProducedHasTerminal(events);
      var x := Run(events, binary, before);
      assert Calm(actions[|actions| - 1]);
      assert Fair(Produced(events), x.binary);
      StepKeeps(x, actions[|actions| - 1], Produced(events));
    }
  }

  /** Engine, service, producer, queue and send loop together: an undisturbed session hands the client exactly the
      repaired stream of the engine, in order, up to a first cancelled frame; a terminal frame is among it; and the
      request is counted once, as an error exactly if the client got an error frame. */
  lemma UndisturbedStreamArrives(events: seq<Event>, binary: bool, actions: seq<Action>)
    requires AllCalm(actions) && NoBadAudio(binary, Produced(events))
    ensures var x := Run(events, binary, actions);
            var s := x.session;
            && s.sent <= Produced(events)
            && (x.stage == Over ==>
                  && s.sent == UpToCancelled(Produced(events)) && HasTerminal(s.sent)
                  && s.okCount + s.errorCount == 1 && (s.errorCount == 1 <==> HasError(s.sent)))
  {
    RunKeeps(events, binary, actions);
    ProducedHasTerminal(events);
    UpToCancelledHasTerminal(Produced(events));
    var x := Run(events, binary, actions);
    assert x.session.sent <= Reached(x) <= Reached(x) + InTransit(x);
    if x.sender.Ended? { assert Reached(x) == x.session.sent; }
  }
}

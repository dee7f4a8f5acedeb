/** What a cancel does, from the moment that it arrives or is noticed: it takes everything out of the queue, so that
    after the chunk that is being sent the client gets the cancelled frame and nothing else. */
module WsCancel {
  import opened StreamFrames
  import opened WsSession
  import opened WsDelivery

  /** The chunk that is on its way to the client. */
  function InHand(x: Sys): seq<Chunk> {
    if x.sender.Delivering? then [x.sender.chunk] else []
  }

  /** The request can be cancelled: it is running, the client is listened to, and no ending has been seen. */
  predicate Cancellable(x: Sys) {
    x.stage == Running && x.listening && !x.session.sawTerminal
  }

  /** What has been sent since the cancel, given what had been sent before and what was in hand. */
  ghost predicate OnlyNotice(sent: seq<Chunk>, hand: seq<Chunk>, y: Sys) {
    && y.stage != NotStarted && y.session.notified
    && match y.sender
       case Waiting => NoticeNext(y.session.queue) && y.session.sent == sent + hand
       case Delivering(c) =>
         (hand == [c] && y.session.sent == sent && NoticeNext(y.session.queue))
         || (c == CANCELLED_FRAME && y.session.sent == sent + hand)
       case Ended =>
         y.session.sent in {sent, sent + hand, sent + hand + [CANCELLED_FRAME]}
  }

  lemma PutKeepsOnlyNotice(sent: seq<Chunk>, hand: seq<Chunk>, y: Sys)
    requires OnlyNotice(sent, hand, y)
    ensures OnlyNotice(sent, hand, PutLandsStep(y))
  {
    if CanPut(y) && y.session.queue != [] {
      assert (y.session.queue + [WsSession.InHand(y.producer)])[0] == y.session.queue[0];
    }
  }

  lemma TakeKeepsOnlyNotice(sent: seq<Chunk>, hand: seq<Chunk>, y: Sys)
    requires OnlyNotice(sent, hand, y)
    ensures OnlyNotice(sent, hand, TakeStep(y))
  {
    if y.sender.Waiting? { assert TakeStep(y).sender == Delivering(CANCELLED_FRAME); }
  }

  lemma DeliverKeepsOnlyNotice(sent: seq<Chunk>, hand: seq<Chunk>, y: Sys, ok: bool)
    requires OnlyNotice(sent, hand, y)
    ensures OnlyNotice(sent, hand, DeliverStep(y, ok))
  {
  }

  lemma OtherStepsKeepOnlyNotice(sent: seq<Chunk>, hand: seq<Chunk>, y: Sys, a: Action)
    requires OnlyNotice(sent, hand, y) && !a.PutLands? && !a.Take? && !a.Deliver?
    ensures OnlyNotice(sent, hand, Step(y, a))
  {
    assert hand == [] ==> sent + hand == sent;
  }

  lemma StepKeepsOnlyNotice(sent: seq<Chunk>, hand: seq<Chunk>, y: Sys, a: Action)
    requires OnlyNotice(sent, hand, y)
    ensures OnlyNotice(sent, hand, Step(y, a))
  {
    if a.PutLands? {
      PutKeepsOnlyNotice(sent, hand, y);
    } else if a.Take? {
      TakeKeepsOnlyNotice(sent, hand, y);
    } else if a.Deliver? {
      DeliverKeepsOnlyNotice(sent, hand, y, a.ok);
    } else {
      OtherStepsKeepOnlyNotice(sent, hand, y, a);
    }
  }

  /** The chunk in hand, if any, is one that the send loop goes on after. */
  ghost predicate GoesOn(x: Sys) {
    x.sender.Delivering? ==> !EndsLoop(x.binary, x.sender.chunk, true)
  }

  /** The cancel itself. */
  lemma CancelStarts(x: Sys)
    requires Agrees(x) && NoticeHolds(x.session, x.sender) && Cancellable(x)
    ensures var y := Step(x, ClientCancels);
            && OnlyNotice(x.session.sent, InHand(x), y) && GoesOn(x) && y.session.cancelledByClient
            && y.sender == x.sender && y.session.sent == x.session.sent && y.binary == x.binary
  {
    assert x.session.sent + [] == x.session.sent;
  }

  /** The first notice of a cancel from elsewhere. */
  lemma NoticeStarts(x: Sys)
    requires x.stage != NotStarted && x.notices > 0 && !x.session.notified
    ensures var y := Step(x, Notice);
            && OnlyNotice(x.session.sent, InHand(x), y)
            && y.sender == x.sender && y.session.sent == x.session.sent && y.binary == x.binary
  {
    assert x.session.sent + [] == x.session.sent;
  }

  // ---------- from the cancel on ----------

  function After(x: Sys, actions: seq<Action>): Sys {
    if actions == [] then x else Step(After(x, actions[..|actions| - 1]), actions[|actions| - 1])
  }

  lemma {:induction false} RunThenAfter(events: seq<Event>, binary: bool, before: seq<Action>, after: seq<Action>)
    ensures Run(events, binary, before + after) == After(Run(events, binary, before), after)
  {
    if after == [] {
      assert before + after == before;
    } else {
      var n := |after| - 1;
      assert (before + after)[..|before| + n] == before + after[..n];
      RunThenAfter(events, binary, before, after[..n]);
    }
  }

  lemma {:induction false} AfterKeepsOnlyNotice(sent: seq<Chunk>, hand: seq<Chunk>, y: Sys, after: seq<Action>)
    requires OnlyNotice(sent, hand, y)
    ensures OnlyNotice(sent, hand, After(y, after))
  {
    if after != [] {
      AfterKeepsOnlyNotice(sent, hand, y, after[..|after| - 1]);
      StepKeepsOnlyNotice(sent, hand, After(y, after[..|after| - 1]), after[|after| - 1]);
    }
  }

  /** Nothing is wrong with the client, and it does not keep the send loop waiting too long. */
  predicate Smooth(a: Action) {
    !(a == Deliver(false) || a.IdleTimeout? || a.WaitingNoticeFails?)
  }

  ghost predicate AllSmooth(actions: seq<Action>) {
    forall i :: 0 <= i < |actions| ==> Smooth(actions[i])
  }

  /** The send loop is past what was in hand only by sending it, and past the notice likewise. */
  ghost predicate NoticeSent(sent: seq<Chunk>, hand: seq<Chunk>, y: Sys) {
    && (y.sender.Ended? ==> y.session.sent == sent + hand + [CANCELLED_FRAME])
    && (y.sender.Delivering? && y.session.sent != sent + hand ==> GoesOn(y))
  }

  lemma SmoothStep(sent: seq<Chunk>, hand: seq<Chunk>, y: Sys, a: Action)
    requires OnlyNotice(sent, hand, y) && NoticeSent(sent, hand, y) && Smooth(a)
    ensures NoticeSent(sent, hand, Step(y, a))
  {
    if a.Take? && y.sender.Waiting? { assert TakeStep(y).sender == Delivering(CANCELLED_FRAME); }
    assert !BadAudio(y.binary, CANCELLED_FRAME) && IsCancelledFrame(CANCELLED_FRAME);
  }

  lemma {:induction false} AfterSendsNotice(sent: seq<Chunk>, hand: seq<Chunk>, y: Sys, after: seq<Action>)
    requires OnlyNotice(sent, hand, y) && NoticeSent(sent, hand, y) && AllSmooth(after)
    ensures NoticeSent(sent, hand, After(y, after))
  {
    if after != [] {
      var n := |after| - 1;
      AfterSendsNotice(sent, hand, y, after[..n]);
      AfterKeepsOnlyNotice(sent, hand, y, after[..n]);
      assert Smooth(after[n]);
      SmoothStep(sent, hand, After(y, after[..n]), after[n]);
    }
  }

  /** What the client can still get, and what it does get by the end of the send loop if its connection holds. */
  ghost predicate StopsThere(x: Sys, y: Sys, smooth: bool) {
    var sent, hand := x.session.sent, InHand(x);
    && y.session.sent in {sent, sent + hand, sent + hand + [CANCELLED_FRAME]}
    && (smooth && GoesOn(x) && !x.sender.Ended? && y.sender.Ended? ==>
          y.session.sent == sent + hand + [CANCELLED_FRAME])
  }

  lemma StopsFromThere(x: Sys, c: Sys, after: seq<Action>)
    requires OnlyNotice(x.session.sent, InHand(x), c)
    requires c.sender == x.sender && c.session.sent == x.session.sent && c.binary == x.binary
    ensures StopsThere(x, After(c, after), AllSmooth(after))
  {
    AfterKeepsOnlyNotice(x.session.sent, InHand(x), c, after);
    if AllSmooth(after) && GoesOn(x) && !x.sender.Ended? {
      AfterSendsNotice(x.session.sent, InHand(x), c, after);
    }
    assert InHand(x) == [] ==> x.session.sent + InHand(x) == x.session.sent;
  }

  lemma RunStepAfter(events: seq<Event>, binary: bool, before: seq<Action>, a: Action, after: seq<Action>)
    ensures Run(events, binary, before + [a] + after) == After(Step(Run(events, binary, before), a), after)
  {
    assert (before + [a])[..|before|] == before;
    RunThenAfter(events, binary, before + [a], after);
  }

  /** From the arrival of a client's cancel on, whatever has been queued and whatever happens after it: the client gets
      at most the chunk that was being sent and then the cancelled frame. If its connection holds and the send loop was
      not over, it has got both when that ends. */
  lemma CancelStopsTheStream(events: seq<Event>, binary: bool, before: seq<Action>, after: seq<Action>)
    requires Cancellable(Run(events, binary, before))
    ensures var x := Run(events, binary, before);
            StopsThere(x, Run(events, binary, before + [ClientCancels] + after), AllSmooth(after)) && GoesOn(x)
  {
    var x := Run(events, binary, before);
    RunAgrees(events, binary, before);
    NoticeHoldsAlways(events, binary, before);
    CancelStarts(x);
    RunStepAfter(events, binary, before, ClientCancels, after);
    StopsFromThere(x, Step(x, ClientCancels), after);
  }

  /** The same from the first notice on that the producer has the event loop give of a cancel from elsewhere. */
  lemma NoticeStopsTheStream(events: seq<Event>, binary: bool, before: seq<Action>, after: seq<Action>)
    requires var x := Run(events, binary, before); x.stage != NotStarted && x.notices > 0 && !x.session.notified
    ensures StopsThere(Run(events, binary, before), Run(events, binary, before + [Notice] + after), AllSmooth(after))
  {
    var x := Run(events, binary, before);
    NoticeStarts(x);
    RunStepAfter(events, binary, before, Notice, after);
    StopsFromThere(x, Step(x, Notice), after);
  }

  // ---------- what is counted of a cancelled request ----------

  ghost predicate Withdrawn(x: Sys) {
    x.session.cancelledByClient && x.session.okCount == 0
  }

  lemma StepKeepsWithdrawn(x: Sys, a: Action)
    requires Withdrawn(x)
    ensures Withdrawn(Step(x, a))
  {
    if IsProducerAction(a) {
      ProducerMoves(x, a);
    } else {
      assert Step(x, a) == x || Step(x, a) == TaskStep(x, a);
    }
  }

  lemma {:induction false} AfterKeepsWithdrawn(x: Sys, after: seq<Action>)
    requires Withdrawn(x)
    ensures Withdrawn(After(x, after))
  {
    if after != [] {
      AfterKeepsWithdrawn(x, after[..|after| - 1]);
      StepKeepsWithdrawn(After(x, after[..|after| - 1]), after[|after| - 1]);
    }
  }

  /** A request that its client has cancelled is never counted as ok. */
  lemma CancelledIsNeverOk(events: seq<Event>, binary: bool, before: seq<Action>, after: seq<Action>)
    requires Cancellable(Run(events, binary, before))
    ensures Run(events, binary, before + [ClientCancels] + after).session.okCount == 0
  {
    var x := Run(events, binary, before);
    RunAgrees(events, binary, before);
    NoticeHoldsAlways(events, binary, before);
    CancelStarts(x);
    assert Withdrawn(Step(x, ClientCancels));
    RunStepAfter(events, binary, before, ClientCancels, after);
    AfterKeepsWithdrawn(Step(x, ClientCancels), after);
  }
}

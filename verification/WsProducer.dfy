/** What reaches the client in any run at all, and what becomes of a session that is cancelled early, late or by the
    client's going away. */
module WsProducer {
  import opened StreamFrames
  import opened WsSession
  import opened WsDelivery
  import C = WsCancel

  // ---------- what the producer puts ----------

  /** The frames still to come from the service iterator, if nobody cancels. */
  function ToCome(it: Iter): seq<Chunk>
    decreases |it.events|, !it.ended
  {
    match Next(it, false)
    case Yield(c, next) => [c] + ToCome(next)
    case Raise(_) => []
    case End(_) => []
  }

  function AllFrames(events: seq<Event>): seq<Chunk> {
    ToCome(Start(events))
  }

  lemma {:induction false} ToComeIsDrain(it: Iter, never: nat -> bool, k: nat)
    requires !it.ended && forall j: nat :: !never(j)
    ensures ToCome(it) == Drain(it, never, k).frames
    decreases |it.events|
  {
    match Next(it, false)
    case Yield(c, next) =>
      if next.ended {
        assert ToCome(next) == [] && Drain(next, never, k + 1) == Outcome([], false);
      } else {
        ToComeIsDrain(next, never, k + 1);
      }
    case Raise(_) =>
    case End(_) =>
  }

  /** The chunks that the producer has put so far, in order. */
  function Put(events: seq<Event>, binary: bool, actions: seq<Action>): seq<Chunk> {
    if actions == [] then []
    else
      var before, a := actions[..|actions| - 1], actions[|actions| - 1];
      var x := Run(events, binary, before);
      Put(events, binary, before)
      + (if a == PutLands && x.stage != NotStarted && CanPut(x) && WsSession.InHand(x.producer).Delivery?
         then [WsSession.InHand(x.producer).chunk] else [])
  }

  /** A beginning of all frames, and the failure frame behind it or not. */
  predicate BeginsOrFails(p: seq<Chunk>, all: seq<Chunk>) {
    p <= all || (p != [] && p[|p| - 1] == FAILURE_FRAME && p[..|p| - 1] <= all)
  }

  /** Where the producer stands: as long as nobody has cancelled, what was put and what is to come are all frames. */
  ghost predicate NoGap(x: Sys, put: seq<Chunk>, all: seq<Chunk>) {
    match x.producer
    case Pulling(it) => put <= all && (!IsCancelled(x.session) ==> put + ToCome(it) == all)
    case Got(c, it) => put <= all && (!IsCancelled(x.session) ==> put + [c] + ToCome(it) == all)
    case Putting(c, it) => put + [c] <= all && (!IsCancelled(x.session) ==> put + [c] + ToCome(it) == all)
    case Failed => put <= all
    case PuttingFailure => put <= all
    case _ => BeginsOrFails(put, all)
  }

  /** What the client has got, and what is on its way, was put by the producer, up to the notice. */
  ghost predicate Relayed(x: Sys, put: seq<Chunk>) {
    var sent, queue := x.session.sent, x.session.queue;
    match x.sender
    case Ended => sent <= put || (sent != [] && sent[|sent| - 1] == CANCELLED_FRAME && sent[..|sent| - 1] <= put)
    case Waiting => if x.session.notified then NoticeNext(queue) && sent <= put else sent + Queued(queue) == put
    case Delivering(c) =>
      if !x.session.notified then sent + [c] + Queued(queue) == put
      else (c == CANCELLED_FRAME && sent <= put) || (NoticeNext(queue) && sent + [c] <= put)
  }

  ghost predicate InStep(x: Sys, put: seq<Chunk>, all: seq<Chunk>) {
    NoGap(x, put, all) && Relayed(x, put)
  }

  /** A beginning of all frames, then the failure frame or not, then the cancelled frame or not. */
  ghost predicate ClientOk(sent: seq<Chunk>, all: seq<Chunk>) {
    BeginsOrFails(sent, all)
    || (sent != [] && sent[|sent| - 1] == CANCELLED_FRAME && BeginsOrFails(sent[..|sent| - 1], all))
  }

  lemma PrefixBegins(sent: seq<Chunk>, put: seq<Chunk>, all: seq<Chunk>)
    requires sent <= put && BeginsOrFails(put, all)
    ensures BeginsOrFails(sent, all)
  {
    if !(put <= all) && |sent| < |put| { assert sent <= put[..|put| - 1]; }
  }

  lemma PutBegins(x: Sys, put: seq<Chunk>, all: seq<Chunk>)
    requires NoGap(x, put, all)
    ensures BeginsOrFails(put, all)
  {
    if x.producer.Putting? { assert put <= put + [x.producer.chunk]; }
  }

  lemma ClientIsOk(x: Sys, put: seq<Chunk>, all: seq<Chunk>)
    requires InStep(x, put, all)
    ensures ClientOk(x.session.sent, all)
  {
    PutBegins(x, put, all);
    var sent := x.session.sent;
    if x.sender.Waiting? && !x.session.notified { assert sent <= sent + Queued(x.session.queue); }
    if x.sender.Delivering? && !x.session.notified { assert sent <= sent + [x.sender.chunk] + Queued(x.session.queue); }
    if sent <= put { PrefixBegins(sent, put, all); } else { PrefixBegins(sent[..|sent| - 1], put, all); }
  }

  // ---------- the steps ----------

  lemma PullInStep(x: Sys, put: seq<Chunk>, all: seq<Chunk>)
    requires InStep(x, put, all) && x.producer.Pulling?
    ensures InStep(PullStep(x), put, all)
  {
    var it := x.producer.iter;
    match Next(it, IsCancelled(x.session))
    case Yield(c, next) => if !IsCancelled(x.session) { assert put + [c] + ToCome(next) == put + ([c] + ToCome(next)); }
    case End(_) =>
    case Raise(_) =>
  }

  lemma OfferInStep(x: Sys, put: seq<Chunk>, all: seq<Chunk>)
    requires InStep(x, put, all)
    ensures InStep(OfferStep(x), put, all)
  {
    if x.producer.Got? && !IsCancelled(x.session) {
      assert put + [x.producer.chunk] <= put + [x.producer.chunk] + ToCome(x.producer.iter);
    }
  }

  lemma LandsNoGap(x: Sys, put: seq<Chunk>, all: seq<Chunk>)
    requires NoGap(x, put, all) && CanPut(x)
    ensures var item := WsSession.InHand(x.producer);
            NoGap(PutLandsStep(x), put + (if item.Delivery? then [item.chunk] else []), all)
  {
    var item, y := WsSession.InHand(x.producer), PutLandsStep(x);
    if x.producer.PuttingFailure? { assert (put + [FAILURE_FRAME])[..|put|] == put; }
    assert put + [] == put;
  }

  lemma LandsBeforeNotice(x: Sys, put: seq<Chunk>, front: seq<Chunk>, more: seq<Chunk>)
    requires CanPut(x) && front + Queued(x.session.queue) == put
    requires more == (if WsSession.InHand(x.producer).Delivery? then [WsSession.InHand(x.producer).chunk] else [])
    ensures front + Queued(PutLandsStep(x).session.queue) == put + more
  {
    QueuedGrows(x.session.queue, WsSession.InHand(x.producer));
    assert front + (Queued(x.session.queue) + more) == front + Queued(x.session.queue) + more;
  }

  lemma LandsRelayed(x: Sys, put: seq<Chunk>, more: seq<Chunk>)
    requires Relayed(x, put) && CanPut(x)
    requires more == (if WsSession.InHand(x.producer).Delivery? then [WsSession.InHand(x.producer).chunk] else [])
    ensures Relayed(PutLandsStep(x), put + more)
  {
    var queue, y := x.session.queue, PutLandsStep(x);
    assert y.session == x.session.(queue := y.session.queue) && y.sender == x.sender;
    if x.sender.Ended? {
      assert put <= put + more;
    } else if !x.session.notified {
      LandsBeforeNotice(x, put, x.session.sent + (if x.sender.Delivering? then [x.sender.chunk] else []), more);
      assert x.session.sent + [] == x.session.sent;
    } else {
      assert put <= put + more;
      if queue != [] { assert y.session.queue[0] == queue[0]; }
    }
  }

  lemma NoticeInStep(x: Sys, y: Sys, put: seq<Chunk>, all: seq<Chunk>)
    requires InStep(x, put, all) && y.producer == x.producer && y.sender == x.sender
    requires y.session.sent == x.session.sent && (IsCancelled(x.session) ==> IsCancelled(y.session))
    requires (y.session.queue == x.session.queue && y.session.notified == x.session.notified)
             || (!x.session.notified && y.session.notified && NoticeNext(y.session.queue))
    ensures InStep(y, put, all)
  {
    if x.sender.Waiting? && !x.session.notified { assert x.session.sent <= x.session.sent + Queued(x.session.queue); }
    if x.sender.Delivering? && !x.session.notified {
      var c := x.sender.chunk;
      assert x.session.sent + [c] <= x.session.sent + [c] + Queued(x.session.queue);
    }
  }

  lemma TakeInStep(x: Sys, put: seq<Chunk>, all: seq<Chunk>)
    requires InStep(x, put, all)
    ensures InStep(TakeStep(x), put, all)
  {
    if x.sender.Waiting? && x.session.queue != [] {
      var sent, queue := x.session.sent, x.session.queue;
      if queue[0].Delivery? {
        assert sent + ([queue[0].chunk] + Queued(queue[1..])) == sent + [queue[0].chunk] + Queued(queue[1..]);
      } else {
        assert sent <= sent + Queued(queue);
      }
    }
  }

  lemma DeliverInStep(x: Sys, ok: bool, put: seq<Chunk>, all: seq<Chunk>)
    requires InStep(x, put, all)
    ensures InStep(DeliverStep(x, ok), put, all)
  {
    if x.sender.Delivering? {
      var sent, c := x.session.sent, x.sender.chunk;
      assert (sent + [c])[..|sent|] == sent;
      assert sent <= sent + [c] + Queued(x.session.queue) && sent + [c] <= sent + [c] + Queued(x.session.queue);
      assert sent <= sent + [c];
    }
  }

  lemma EndInStep(x: Sys, y: Sys, put: seq<Chunk>, all: seq<Chunk>)
    requires InStep(x, put, all) && x.sender.Waiting? && y.sender.Ended? && y.producer == x.producer
    requires y.session.sent == x.session.sent && (IsCancelled(x.session) ==> IsCancelled(y.session))
    ensures InStep(y, put, all)
  {
    assert x.session.sent <= x.session.sent + Queued(x.session.queue);
  }

  lemma ProducerRests(x: Sys, a: Action, put: seq<Chunk>, all: seq<Chunk>)
    requires InStep(x, put, all) && (a.PutFails? || a.FinishProducer?)
    ensures InStep(TaskStep(x, a), put, all)
  {
    if x.producer.Putting? { assert put <= put + [x.producer.chunk]; }
  }

  lemma CancelInStep(x: Sys, a: Action, put: seq<Chunk>, all: seq<Chunk>)
    requires InStep(x, put, all) && (a.Notice? || a.ClientCancels?)
    ensures InStep(TaskStep(x, a), put, all)
  {
    NoticeInStep(x, TaskStep(x, a), put, all);
  }

  lemma EndingInStep(x: Sys, a: Action, put: seq<Chunk>, all: seq<Chunk>)
    requires InStep(x, put, all) && (a.IdleTimeout? || a.WaitingNoticeFails?)
    ensures InStep(TaskStep(x, a), put, all)
  {
    if x.sender.Waiting? { EndInStep(x, TaskStep(x, a), put, all); }
  }

  /** What the step adds to what was put. */
  function PutBy(x: Sys, a: Action): seq<Chunk> {
    if a == PutLands && x.stage != NotStarted && CanPut(x) && WsSession.InHand(x.producer).Delivery?
    then [WsSession.InHand(x.producer).chunk] else []
  }

  lemma RunningInStep(x: Sys, a: Action, put: seq<Chunk>, all: seq<Chunk>)
    requires InStep(x, put, all) && x.stage == Running
    ensures Step(x, a).stage == Running ==> InStep(Step(x, a), put + PutBy(x, a), all)
  {
    assert put + [] == put;
    match a
    case ExternalCancel => NoticeInStep(x, Step(x, a), put, all);
    case Pull => if x.producer.Pulling? { PullInStep(x, put, all); }
    case Offer => OfferInStep(x, put, all);
    case PutLands =>
      if CanPut(x) {
        LandsNoGap(x, put, all);
        LandsRelayed(x, put, PutBy(x, a));
      }
    case PutFails => ProducerRests(x, a, put, all);
    case FinishProducer(_) => ProducerRests(x, a, put, all);
    case Notice => CancelInStep(x, a, put, all);
    case ClientCancels => CancelInStep(x, a, put, all);
    case Take => TakeInStep(x, put, all);
    case Deliver(ok) => DeliverInStep(x, ok, put, all);
    case IdleTimeout => EndingInStep(x, a, put, all);
    case WaitingNoticeFails => EndingInStep(x, a, put, all);
    case CloseDown =>
    case Conclude =>
    case Begin =>
  }

  /** Nothing has begun, or the session runs in step, or nothing more is sent. */
  ghost predicate Ordered(x: Sys, put: seq<Chunk>, all: seq<Chunk>) {
    match x.stage
    case NotStarted => InStep(x, put, all)
    case Running => InStep(x, put, all)
    case _ => ClientOk(x.session.sent, all) && x.sender.Ended?
  }

  lemma UnstartedInStep(x: Sys, a: Action, put: seq<Chunk>, all: seq<Chunk>)
    requires InStep(x, put, all) && x.stage == NotStarted
    ensures Ordered(Step(x, a), put, all)
  {
    ClientIsOk(x, put, all);
    if a.ExternalCancel? { NoticeInStep(x, Step(x, a), put, all); }
  }

  lemma RunningStays(x: Sys, a: Action)
    requires x.stage == Running
    ensures var y := Step(x, a);
            y.stage == Running || (y.sender.Ended? && y.session.sent == x.session.sent && y.stage != NotStarted)
  {
    if IsProducerAction(a) {
      ProducerMoves(x, a);
    } else if !a.CloseDown? {
      assert Step(x, a).stage == Running;
    }
  }

  lemma OrderedByStep(x: Sys, a: Action, put: seq<Chunk>, all: seq<Chunk>)
    requires Ordered(x, put, all)
    ensures Ordered(Step(x, a), put + PutBy(x, a), all)
  {
    if x.stage == Running {
      RunningInStep(x, a, put, all);
      ClientIsOk(x, put, all);
      RunningStays(x, a);
    } else if x.stage == NotStarted {
      assert put + [] == put;
      UnstartedInStep(x, a, put, all);
    } else {
      SentStays(x, a);
    }
  }

  lemma SentStays(x: Sys, a: Action)
    requires x.sender.Ended? && x.stage != NotStarted
    ensures var y := Step(x, a); y.sender.Ended? && y.session.sent == x.session.sent && y.stage != NotStarted
    ensures x.stage != Running ==> Step(x, a).stage != Running
  {
    if IsProducerAction(a) { ProducerMoves(x, a); }
  }

  lemma {:induction false} RunIsOrdered(events: seq<Event>, binary: bool, actions: seq<Action>)
    ensures Ordered(Run(events, binary, actions), Put(events, binary, actions), AllFrames(events))
  {
    if actions == [] {
      assert [] + ToCome(Start(events)) == AllFrames(events);
    } else {
      var before := actions[..|actions| - 1];
      var x, put := Run(events, binary, before), Put(events, binary, before);
      RunIsOrdered(events, binary, before);
      OrderedByStep(x, actions[|actions| - 1], put, AllFrames(events));
    }
  }

  /** Whatever anybody does, in whatever order: what the client gets out of the queue is a beginning of the stream as
      the service yields it, with nothing missing in between, then a failure frame or not, then a cancelled frame or
      not, and nothing else. */
  lemma ClientGetsABeginning(events: seq<Event>, binary: bool, actions: seq<Action>)
    ensures ClientOk(Run(events, binary, actions).session.sent, Drain(Start(events), (k: nat) => false, 0).frames)
  {
    ToComeIsDrain(Start(events), (k: nat) => false, 0);
    RunIsOrdered(events, binary, actions);
    var x := Run(events, binary, actions);
    if x.stage == NotStarted || x.stage == Running { ClientIsOk(x, Put(events, binary, actions), AllFrames(events)); }
  }

  // ---------- what is never sent ----------

  /** An audio frame that a binary client could not make anything of. */
  predicate Undecodable(c: Chunk) {
    c.Frame? && c.kind == Audio && !c.decodable
  }

  lemma SentByStep(x: Sys, a: Action)
    ensures var y := Step(x, a);
            || y.session.sent == x.session.sent
            || (exists c :: y.session.sent == x.session.sent + [c] && !(x.binary && Undecodable(c)))
    ensures Step(x, a).binary == x.binary
  {
    if IsProducerAction(a) {
      ProducerMoves(x, a);
    } else if a.Deliver? {
      assert Step(x, a) == x || Step(x, a) == DeliverStep(x, a.ok);
    } else {
      assert Step(x, a) == x || Step(x, a) == TaskStep(x, a);
    }
  }

  /** A binary client never gets an audio frame that cannot be decoded. */
  lemma {:induction false} UndecodableAudioIsNeverSent(events: seq<Event>, actions: seq<Action>, i: nat)
    requires i < |Run(events, true, actions).session.sent|
    ensures !Undecodable(Run(events, true, actions).session.sent[i])
  {
    if actions != [] {
      var before := actions[..|actions| - 1];
      var x := Run(events, true, before);
      BinaryIsFixed(events, true, before);
      SentByStep(x, actions[|actions| - 1]);
      if i < |x.session.sent| { UndecodableAudioIsNeverSent(events, before, i); }
    }
  }

  // ---------- early, late and silent cancels ----------

  /** Over before it began. */
  ghost predicate NothingHappened(x: Sys) {
    && x.stage == Over && x.sender.Ended? && !x.listening
    && x.session.sent == [] && x.session.okCount == 0 && x.session.errorCount == 0
  }

  lemma NothingHappens(x: Sys, a: Action)
    requires NothingHappened(x)
    ensures NothingHappened(Step(x, a))
  {
    if IsProducerAction(a) { ProducerMoves(x, a); }
  }

  /** A request that is cancelled before its session begins gets nothing and is counted as nothing, whatever follows. */
  lemma {:induction false} CancelledBeforeItBegins(events: seq<Event>, binary: bool, after: seq<Action>)
    ensures NothingHappened(Run(events, binary, [ExternalCancel, Begin] + after))
  {
    var first := [ExternalCancel, Begin];
    if after == [] {
      assert first + [] == first && first[..1] == [ExternalCancel] && [ExternalCancel][..0] == [];
      assert Run(events, binary, [ExternalCancel]) == Step(Init(events, binary), ExternalCancel);
    } else {
      var n := |after| - 1;
      assert (first + after)[..2 + n] == first + after[..n];
      CancelledBeforeItBegins(events, binary, after[..n]);
      NothingHappens(Run(events, binary, first + after[..n]), after[n]);
    }
  }

  /** A client's cancel that comes behind the end of the stream changes nothing in the session. */
  lemma LateCancelsAreIgnored(x: Sys)
    requires x.stage != NotStarted && x.session.sawTerminal
    ensures Step(x, ClientCancels).session == x.session
  {
  }

  /** A session that is concluded leaves no cancellation in the registry. */
  lemma ConcludingClearsTheRegistry(x: Sys)
    requires x.stage == Closing
    ensures !Step(x, Conclude).session.registryCancelled && Step(x, Conclude).stage == Over
  {
  }

  /** A client that turns out to be gone while the loop waits counts as having cancelled: its request is never ok. */
  lemma GoneClientsAreNeverOk(x: Sys, after: seq<Action>)
    requires x.stage == Running && x.sender.Waiting? && x.session.okCount == 0
    ensures C.After(Step(x, WaitingNoticeFails), after).session.okCount == 0
    ensures C.After(Step(x, WaitingNoticeFails), after).session.cancelledByClient
  {
    assert C.Withdrawn(Step(x, WaitingNoticeFails));
    C.AfterKeepsWithdrawn(Step(x, WaitingNoticeFails), after);
  }

  /** A cancel from elsewhere reaches the client: the producer that finds it when it ends has the event loop notify. */
  lemma CancelledProducerGivesNotice(x: Sys)
    requires x.stage == Running && x.producer.Finishing? && x.session.registryCancelled && !x.session.notified
    ensures var y := Step(Step(x, FinishProducer(true)), Notice);
            && y.session.notified && y.session.queue == [Delivery(CANCELLED_FRAME), DoneMarker]
            && y.producer == Gone && y.session.sent == x.session.sent
  {
  }

  /** Once its request is cancelled, the producer puts nothing but what it had decided to put; if it was the client that
      cancelled, not even a failure. */
  lemma CancelledProducerPutsNothingNew(x: Sys, a: Action)
    requires x.stage == Running && IsCancelled(x.session) && !IsPutting(x.producer)
    ensures var y := Step(x, a); PutBy(x, a) == [] && (IsPutting(y.producer) ==> y.producer == PuttingFailure)
    ensures x.session.cancelEvent ==> !IsPutting(Step(x, a).producer)
  {
  }

  /** The step by which the producer is told to stop: the client cancels, turns out to be gone, or the session closes
      down without having ended normally. */
  predicate StopsProducer(x: Sys, a: Action) {
    x.stage == Running
    && match a
       case ClientCancels => x.listening && !x.session.sawTerminal
       case Deliver(ok) => x.sender.Delivering? && !ok
       case WaitingNoticeFails => x.sender.Waiting?
       case CloseDown =>
         x.sender.Ended? && !(x.session.sawTerminal && !x.session.cancelledByClient && !x.session.registryCancelled)
       case _ => false
  }

  ghost predicate Stopped(x: Sys) {
    x.stage != NotStarted && x.session.cancelEvent && !IsPutting(x.producer)
  }

  lemma StaysStopped(x: Sys, a: Action)
    requires Stopped(x)
    ensures Stopped(Step(x, a)) && PutBy(x, a) == []
  {
    if IsProducerAction(a) { ProducerMoves(x, a); }
  }

  lemma StopsAtOnce(x: Sys, a: Action)
    requires StopsProducer(x, a) && !IsPutting(x.producer)
    ensures Stopped(Step(x, a))
  {
  }

  /** From then on the producer puts nothing any more, neither frame nor failure nor marker, whatever follows. */
  lemma {:induction false} ToldProducersPutNothing(x: Sys, a: Action, after: seq<Action>)
    requires StopsProducer(x, a) && !IsPutting(x.producer)
    ensures Stopped(C.After(Step(x, a), after))
  {
    if after == [] {
      StopsAtOnce(x, a);
    } else {
      var before := after[..|after| - 1];
      ToldProducersPutNothing(x, a, before);
      StaysStopped(C.After(Step(x, a), before), after[|after| - 1]);
    }
  }

  /** And no other closing down tells it. */
  lemma NormalEndsTellNobody(x: Sys)
    requires x.stage == Running && x.sender.Ended? && !StopsProducer(x, CloseDown)
    ensures Step(x, CloseDown).session == x.session
  {
  }
}

/** A WebSocket streaming session as a machine: the producer thread, the send loop, the control listener and outside
    cancellation take turns, each step being what runs without interruption. */
module WsSession {
  import opened StreamFrames

  datatype Item = Delivery(chunk: Chunk) | DoneMarker

  /** The fields of a session. `sent` and `noticeAt` are history: the chunks out of the queue that were handed to the
      client, and how many of them there were when the cancellation notice was queued. */
  datatype Session = Session(queue: seq<Item>, cancelEvent: bool, registryCancelled: bool, cancelledByClient: bool,
                             notified: bool, sawError: bool, sawTerminal: bool, errorCounted: bool,
                             okCount: nat, errorCount: nat, sent: seq<Chunk>, noticeAt: nat)

  const CAPACITY := 4
  const FAILURE_FRAME := Frame(Error, 0, true)
  const FRESH := Session([], false, false, false, false, false, false, false, 0, 0, [], 0)

  /** Where the producer thread stands. */
  datatype Producer =
    | Pulling(iter: Iter)
    | Got(chunk: Chunk, iter: Iter)
    | Putting(chunk: Chunk, iter: Iter)
    | Failed
    | PuttingFailure
    | Finishing
    | PuttingDone
    | Gone

  datatype Sender = Waiting | Delivering(chunk: Chunk) | Ended

  datatype Stage = NotStarted | Running | Closing | Over

  datatype Sys = Sys(session: Session, producer: Producer, sender: Sender, listening: bool, notices: nat, stage: Stage,
                     binary: bool)

  datatype Action =
    | Begin
    | Pull | Offer | PutLands | PutFails | FinishProducer(scheduled: bool)
    | Notice | ClientCancels | ExternalCancel
    | Take | Deliver(ok: bool) | IdleTimeout | WaitingNoticeFails
    | CloseDown | Conclude

  // ---------- the session's own operations ----------

  predicate IsCancelled(s: Session) {
    s.cancelEvent || s.registryCancelled
  }

  /** The two differ at most in what has been recorded about errors and endings. */
  ghost predicate SameTraffic(s: Session, t: Session) {
    && t.queue == s.queue && t.sent == s.sent && t.notified == s.notified && t.noticeAt == s.noticeAt
    && t.cancelEvent == s.cancelEvent && t.registryCancelled == s.registryCancelled
    && t.cancelledByClient == s.cancelledByClient && t.okCount == s.okCount
  }

  function RecordError(s: Session): (t: Session)
    ensures SameTraffic(s, t)
  {
    s.(sawError := true, sawTerminal := true, errorCounted := true,
       errorCount := if s.errorCounted then s.errorCount else s.errorCount + 1)
  }

  function Observe(s: Session, c: Chunk): (t: Session)
    ensures SameTraffic(s, t)
  {
    if c.Frame? && (c.kind == Done || c.kind == Cancelled) then s.(sawTerminal := true)
    else if c.Frame? && (c.kind == Error || c.kind == SegmentError) then RecordError(s)
    else s
  }

  /** An audio frame that cannot be sent as bytes. */
  predicate BadAudio(binary: bool, c: Chunk) {
    binary && c.Frame? && c.kind == Audio && !c.decodable
  }

  /** What happens to a chunk between its leaving the queue and the first wait for the client. */
  function Admit(s: Session, binary: bool, c: Chunk): (t: Session)
    ensures SameTraffic(s, t)
  {
    if BadAudio(binary, c) then RecordError(Observe(s, c)) else Observe(s, c)
  }

  /** The client turned out to be gone while something was being sent. */
  function Disconnected(s: Session): Session {
    s.(registryCancelled := true, cancelEvent := true, cancelledByClient := true)
  }

  /** The outcome of sending a chunk to the client. */
  function HandOver(s: Session, binary: bool, c: Chunk, ok: bool): Session {
    if !ok then Disconnected(s) else if BadAudio(binary, c) then s else s.(sent := s.sent + [c])
  }

  predicate EndsLoop(binary: bool, c: Chunk, ok: bool) {
    !ok || BadAudio(binary, c) || IsCancelledFrame(c)
  }

  /** The done marker came up. */
  function AtMarker(s: Session): (t: Session)
    ensures SameTraffic(s, t)
  {
    if !s.sawTerminal && !IsCancelled(s) then RecordError(s) else s
  }

  function NotifyCancelled(s: Session): (t: Session)
    ensures SameAccount(s, t) && t.notified
  {
    if s.notified then s
    else s.(notified := true, queue := [Delivery(CANCELLED_FRAME), DoneMarker], noticeAt := |s.sent|)
  }

  function MarkClientCancelled(s: Session): Session {
    if s.sawTerminal then s else NotifyCancelled(Disconnected(s))
  }

  /** The first half of winding down. */
  function StopTasks(s: Session): Session {
    if s.sawTerminal && !s.cancelledByClient && !s.registryCancelled then s else s.(cancelEvent := true)
  }

  function Finish(s: Session): Session {
    var t :=
      if s.cancelledByClient || s.registryCancelled then s
      else if s.sawError then s.(errorCount := if s.errorCounted then s.errorCount else s.errorCount + 1)
      else s.(okCount := s.okCount + 1);
    t.(registryCancelled := false)
  }

  function Enqueued(s: Session, item: Item): (t: Session)
    ensures SameAccount(s, t) && t.queue == s.queue + [item]
  {
    s.(queue := s.queue + [item])
  }

  // ---------- the machine ----------

  function Init(events: seq<Event>, binary: bool): Sys {
    Sys(FRESH, Pulling(Start(events)), Waiting, true, 0, NotStarted, binary)
  }

  /** The two differ at most in the queue and in the notice. */
  ghost predicate SameAccount(s: Session, t: Session) {
    && t.cancelEvent == s.cancelEvent && t.registryCancelled == s.registryCancelled
    && t.cancelledByClient == s.cancelledByClient && t.sawError == s.sawError && t.sawTerminal == s.sawTerminal
    && t.errorCounted == s.errorCounted && t.okCount == s.okCount && t.errorCount == s.errorCount && t.sent == s.sent
  }

  /** Nothing that the send loop or the counters depend on has changed. */
  ghost predicate OnlyProducerMoved(x: Sys, y: Sys) {
    && SameAccount(x.session, y.session)
    && y.sender == x.sender && y.listening == x.listening && y.stage == x.stage && y.binary == x.binary
  }

  /** The producer's next step when nothing has to be put. */
  function PullStep(x: Sys): (y: Sys)
    requires x.producer.Pulling?
    ensures OnlyProducerMoved(x, y) && y.session == x.session
  {
    match Next(x.producer.iter, IsCancelled(x.session))
    case Yield(c, it) => x.(producer := Got(c, it))
    case End(_) => x.(producer := Finishing)
    case Raise(_) => x.(producer := Failed)
  }

  /** The producer decides whether to put what it has. */
  function OfferStep(x: Sys): (y: Sys)
    ensures OnlyProducerMoved(x, y) && y.session == x.session
  {
    match x.producer
    case Got(c, it) => x.(producer := if IsCancelled(x.session) then Pulling(it) else Putting(c, it))
    case Failed => x.(producer := if x.session.cancelEvent then Finishing else PuttingFailure)
    case _ => x
  }

  predicate IsPutting(p: Producer) {
    p.Putting? || p.PuttingFailure? || p.PuttingDone?
  }

  function InHand(p: Producer): Item
    requires IsPutting(p)
  {
    if p.Putting? then Delivery(p.chunk) else if p.PuttingFailure? then Delivery(FAILURE_FRAME) else DoneMarker
  }

  function AfterPut(p: Producer): Producer
    requires IsPutting(p)
  {
    if p.Putting? then Pulling(p.iter) else if p.PuttingFailure? then Finishing else Gone
  }

  predicate CanPut(x: Sys) {
    IsPutting(x.producer) && |x.session.queue| < CAPACITY
  }

  function PutLandsStep(x: Sys): (y: Sys)
    ensures OnlyProducerMoved(x, y)
    ensures |x.session.queue| <= CAPACITY ==> |y.session.queue| <= CAPACITY
  {
    if !CanPut(x) then x
    else x.(session := Enqueued(x.session, InHand(x.producer)), producer := AfterPut(x.producer))
  }

  function PutFailsStep(x: Sys): (y: Sys)
    ensures OnlyProducerMoved(x, y) && y.session == x.session
  {
    match x.producer
    case Putting(c, it) => x.(producer := if IsCancelled(x.session) then Pulling(it) else Finishing)
    case PuttingFailure => x.(producer := Finishing)
    case PuttingDone => x.(producer := Gone)
    case _ => x
  }

  /** `scheduled` says whether the event loop accepted the callback. */
  function FinishProducerStep(x: Sys, scheduled: bool): (y: Sys)
    ensures OnlyProducerMoved(x, y) && y.session == x.session
  {
    if !x.producer.Finishing? then x
    else if IsCancelled(x.session) then x.(producer := Gone, notices := if scheduled then x.notices + 1 else x.notices)
    else x.(producer := PuttingDone)
  }

  /** The send loop takes an item from the queue. */
  function TakeStep(x: Sys): Sys {
    if !x.sender.Waiting? || x.session.queue == [] then x
    else
      var s := x.session.(queue := x.session.queue[1..]);
      match x.session.queue[0]
      case DoneMarker => x.(session := AtMarker(s), sender := Ended)
      case Delivery(c) => x.(session := Admit(s, x.binary, c), sender := Delivering(c))
  }

  /** The client got the chunk in hand, or sending to it failed. */
  function DeliverStep(x: Sys, ok: bool): Sys {
    if !x.sender.Delivering? then x
    else
      var c := x.sender.chunk;
      x.(session := HandOver(x.session, x.binary, c, ok),
         sender := if EndsLoop(x.binary, c, ok) then Ended else Waiting)
  }

  function Step(x: Sys, a: Action): Sys {
    if a.ExternalCancel? then x.(session := x.session.(registryCancelled := true))
    else
      match x.stage
      case NotStarted =>
        if !a.Begin? then x
        else if x.session.registryCancelled then
          x.(session := x.session.(registryCancelled := false), producer := Gone, sender := Ended, listening := false,
             stage := Over)
        else x.(stage := Running)
      case _ => TaskStep(x, a)
  }

  function TaskStep(x: Sys, a: Action): Sys {
    match a
    case Pull => if x.producer.Pulling? then PullStep(x) else x
    case Offer => OfferStep(x)
    case PutLands => PutLandsStep(x)
    case PutFails => PutFailsStep(x)
    case FinishProducer(scheduled) => FinishProducerStep(x, scheduled)
    case Notice => if x.notices > 0 then x.(session := NotifyCancelled(x.session), notices := x.notices - 1) else x
    case ClientCancels =>
      if x.listening then x.(session := MarkClientCancelled(x.session), listening := false) else x
    case Take => TakeStep(x)
    case Deliver(ok) => DeliverStep(x, ok)
    case IdleTimeout => if x.sender.Waiting? then x.(session := RecordError(x.session), sender := Ended) else x
    case WaitingNoticeFails =>
      if x.sender.Waiting? then x.(session := Disconnected(x.session), sender := Ended) else x
    case CloseDown =>
      if x.sender.Ended? && x.stage == Running then
        x.(session := StopTasks(x.session), listening := false, stage := Closing)
      else x
    case Conclude => if x.stage == Closing then x.(session := Finish(x.session), stage := Over) else x
    case _ => x
  }

  function Run(events: seq<Event>, binary: bool, actions: seq<Action>): Sys {
    if actions == [] then Init(events, binary)
    else Step(Run(events, binary, actions[..|actions| - 1]), actions[|actions| - 1])
  }

  // ---------- accounting ----------

  /** The chunks the client has been, or is about to be, handed. */
  function Reached(x: Sys): seq<Chunk> {
    x.session.sent + (if x.sender.Delivering? then [x.sender.chunk] else [])
  }

  predicate HasClosing(cs: seq<Chunk>) {
    exists i :: 0 <= i < |cs| && cs[i].Frame? && (cs[i].kind == Done || cs[i].kind == Cancelled)
  }

  ghost predicate CountsAgree(s: Session, stage: Stage) {
    && (s.errorCounted <==> s.sawError) && (s.sawError ==> s.sawTerminal)
    && s.errorCount == (if s.errorCounted then 1 else 0)
    && s.okCount <= (if stage == Over then 1 else 0)
    && (s.okCount == 1 ==> s.sawTerminal && !s.sawError && !s.cancelledByClient)
  }

  ghost predicate StageAgrees(x: Sys) {
    && (x.stage == Over || x.stage == Closing ==> x.sender.Ended? && !x.listening)
    && (x.stage == NotStarted ==> x.sender.Waiting?)
  }

  ghost predicate FlagsAgree(s: Session, stage: Stage) {
    && (stage == NotStarted || stage == Running ==> (s.cancelEvent ==> s.cancelledByClient))
    && (stage != Over && s.cancelledByClient ==> s.registryCancelled)
  }

  /** What the session has seen of the chunks that reached the client or are on their way there. */
  ghost predicate SeenAgrees(s: Session, binary: bool, sender: Sender, stage: Stage) {
    var reached := s.sent + (if sender.Delivering? then [sender.chunk] else []);
    && (HasError(reached) ==> s.sawError)
    && (s.sawTerminal && !s.sawError && !s.cancelledByClient ==> HasClosing(reached))
    && (stage != Over && sender.Ended? ==> s.sawTerminal || s.registryCancelled)
    && (sender.Delivering? && IsCancelledFrame(sender.chunk) ==> s.sawTerminal)
    && (sender.Delivering? && BadAudio(binary, sender.chunk) ==> s.sawError)
  }

  ghost predicate Agrees(x: Sys) {
    StageAgrees(x) && CountsAgree(x.session, x.stage) && FlagsAgree(x.session, x.stage)
    && SeenAgrees(x.session, x.binary, x.sender, x.stage)
  }

  lemma ReachedGrows(cs: seq<Chunk>, c: Chunk)
    ensures HasError(cs + [c]) <==> HasError(cs) || IsErrorFrame(c)
    ensures HasClosing(cs) ==> HasClosing(cs + [c])
    ensures c.Frame? && (c.kind == Done || c.kind == Cancelled) ==> HasClosing(cs + [c])
    ensures HasTerminal(cs + [c]) <==> HasTerminal(cs) || IsTerminal(c)
  {
    var more := cs + [c];
    assert more[|cs|] == c;
    assert forall i :: 0 <= i < |cs| ==> more[i] == cs[i];
    if HasError(cs) { var j :| 0 <= j < |cs| && IsErrorFrame(cs[j]); assert IsErrorFrame(more[j]); }
    if HasTerminal(cs) { var j :| 0 <= j < |cs| && IsTerminal(cs[j]); assert IsTerminal(more[j]); }
    if HasClosing(cs) {
      var j :| 0 <= j < |cs| && cs[j].Frame? && (cs[j].kind == Done || cs[j].kind == Cancelled);
      assert more[j] == cs[j];
    }
    if IsTerminal(c) { assert IsTerminal(more[|cs|]); }
    if IsErrorFrame(c) { assert IsErrorFrame(more[|cs|]); }
  }

  lemma TakeAgrees(x: Sys)
    requires Agrees(x) && x.stage != NotStarted
    ensures Agrees(TakeStep(x))
  {
    if x.sender.Waiting? && x.session.queue != [] {
      assert x.session.sent + [] == x.session.sent;
      if x.session.queue[0].Delivery? {
        ReachedGrows(x.session.sent, x.session.queue[0].chunk);
      }
    }
  }

  lemma DeliverAgrees(x: Sys, ok: bool)
    requires Agrees(x) && x.stage != NotStarted
    ensures Agrees(DeliverStep(x, ok))
  {
    if x.sender.Delivering? {
      ReachedGrows(x.session.sent, x.sender.chunk);
      assert x.session.sent + [] == x.session.sent;
      assert x.session.sent + [x.sender.chunk] + [] == x.session.sent + [x.sender.chunk];
    }
  }

  lemma ProducerAgrees(x: Sys, y: Sys)
    requires Agrees(x) && OnlyProducerMoved(x, y)
    ensures Agrees(y)
  {
  }

  predicate IsProducerAction(a: Action) {
    a.Begin? || a.Pull? || a.Offer? || a.PutLands? || a.PutFails? || a.FinishProducer? || a.Notice? || a.ExternalCancel?
  }

  lemma ProducerMoves(x: Sys, a: Action)
    requires IsProducerAction(a)
    ensures OnlyProducerMoved(x, TaskStep(x, a))
  {
  }

  lemma CancelAgrees(x: Sys, a: Action)
    requires Agrees(x) && x.stage != NotStarted && (a.ClientCancels? || a.IdleTimeout? || a.WaitingNoticeFails?)
    ensures Agrees(TaskStep(x, a))
  {
    assert x.session.sent + [] == x.session.sent;
  }

  lemma CloseAgrees(x: Sys, a: Action)
    requires Agrees(x) && x.stage != NotStarted && (a.CloseDown? || a.Conclude?)
    ensures Agrees(TaskStep(x, a))
  {
    assert x.session.sent + [] == x.session.sent;
  }

  lemma TaskAgrees(x: Sys, a: Action)
    requires Agrees(x) && x.stage != NotStarted
    ensures Agrees(TaskStep(x, a))
  {
    match a
    case Take => TakeAgrees(x);
    case Deliver(ok) => DeliverAgrees(x, ok);
    case ClientCancels => CancelAgrees(x, a);
    case IdleTimeout => CancelAgrees(x, a);
    case WaitingNoticeFails => CancelAgrees(x, a);
    case CloseDown => CloseAgrees(x, a);
    case Conclude => CloseAgrees(x, a);
    case _ =>
      ProducerMoves(x, a);
      ProducerAgrees(x, TaskStep(x, a));
  }

  lemma StepAgrees(x: Sys, a: Action)
    requires Agrees(x)
    ensures Agrees(Step(x, a))
  {
    if !a.ExternalCancel? && x.stage != NotStarted {
      TaskAgrees(x, a);
    } else {
      assert x.session.sent + [] == x.session.sent;
    }
  }

  lemma {:induction false} RunAgrees(events: seq<Event>, binary: bool, actions: seq<Action>)
    ensures Agrees(Run(events, binary, actions))
  {
    if actions != [] {
      var before := actions[..|actions| - 1];
      RunAgrees(events, binary, before);
      StepAgrees(Run(events, binary, before), actions[|actions| - 1]);
    }
  }

  /** In every run a request is counted at most once: never as ok and as an error, never twice as either. */
  lemma CountedAtMostOnce(events: seq<Event>, binary: bool, actions: seq<Action>)
    ensures var s := Run(events, binary, actions).session; s.okCount + s.errorCount <= 1
  {
    RunAgrees(events, binary, actions);
  }

  /** The two agree on the counters, and the session is over in both. */
  ghost predicate OverAlike(x: Sys, y: Sys) {
    && x.stage == Over && y.stage == Over
    && y.session.okCount == x.session.okCount && y.session.errorCount == x.session.errorCount
  }

  lemma OverIsFinal(x: Sys, a: Action)
    requires Agrees(x) && x.stage == Over
    ensures OverAlike(x, Step(x, a))
  {
    if IsProducerAction(a) && !a.ExternalCancel? { ProducerMoves(x, a); }
  }

  lemma {:induction false} CountsAreFinal(events: seq<Event>, binary: bool, before: seq<Action>, after: seq<Action>)
    requires Run(events, binary, before).stage == Over
    ensures OverAlike(Run(events, binary, before), Run(events, binary, before + after))
  {
    if after == [] {
      assert before + after == before;
    } else {
      var n := |after| - 1;
      CountsAreFinal(events, binary, before, after[..n]);
      assert before + after == before + after[..n] + [after[n]];
      StaysOver(events, binary, before + after[..n], after[n]);
    }
  }

  lemma StaysOver(events: seq<Event>, binary: bool, actions: seq<Action>, a: Action)
    requires Run(events, binary, actions).stage == Over
    ensures OverAlike(Run(events, binary, actions), Run(events, binary, actions + [a]))
  {
    assert (actions + [a])[..|actions|] == actions;
    RunAgrees(events, binary, actions);
    OverIsFinal(Run(events, binary, actions), a);
  }

  /** Exactly when a request is counted. A session that is concluded counts it once, there and then and for good, if and
      only if an error has been recorded or neither cancellation flag is set; as ok if there is neither an error nor a
      flag. */
  lemma CountedExactlyWhen(events: seq<Event>, binary: bool, before: seq<Action>, after: seq<Action>)
    requires Run(events, binary, before).stage == Closing
    ensures var s := Run(events, binary, before).session;
            var t := Run(events, binary, before + [Conclude] + after).session;
            && (t.okCount + t.errorCount == 1 <==> s.sawError || !(s.cancelledByClient || s.registryCancelled))
            && (t.okCount == 1 <==> !s.sawError && !(s.cancelledByClient || s.registryCancelled))
  {
    RunAgrees(events, binary, before);
    assert (before + [Conclude])[..|before|] == before;
    CountsAreFinal(events, binary, before + [Conclude], after);
  }

  /** A request that was counted as ok ended with a done or cancelled frame that the client got; the client got no
      error frame and did not go away. */
  lemma OkMeansTheClientGotAnEnding(events: seq<Event>, binary: bool, actions: seq<Action>)
    requires Run(events, binary, actions).session.okCount > 0
    ensures var s := Run(events, binary, actions).session;
            HasClosing(s.sent) && !HasError(s.sent) && !s.cancelledByClient
  {
    RunAgrees(events, binary, actions);
    var x := Run(events, binary, actions);
    assert Reached(x) == x.session.sent;
  }
}

/** How requests end: each recorded ending has its cause, a stream that breaks off is cancelled, nothing is yielded
    after a cancellation, and a worker that was shut down or killed leaves nothing behind. */
module WorkerEndings {
  import opened WorkerProtocol
  import opened WorkerProtocolProofs

  // ---------- why a request ended ----------

  predicate NextIs(l: Link, id: nat, body: Body) {
    l.results != [] && l.results[0] == Msg(id, body)
  }

  predicate InHand(p: Parent, id: nat) {
    (p.Streaming? || p.Awaiting?) && p.id == id
  }

  /** The action ends the request like this, and may. */
  predicate Causes(s: Sys, a: Action, id: nat, how: Ending) {
    match how
    case Completed => s.parent == Tail(id) && (a.TailOver? || a.Receive?)
    case Cancelled =>
      a.Receive? && s.parent.Streaming? && s.parent.id == id && s.parent.draining && NextIs(s.link, id, Done)
    case DrainExpired => a.ExpireDrain? && s.parent.Streaming? && s.parent.id == id && s.parent.draining
    case TimedOut => a.TimeOut? && InHand(s.parent, id) && Step(s, a).child == Dead && !Step(s, a).link.open
    case WorkerExited => a.SeeExit? && InHand(s.parent, id) && s.child == Dead
    case QueueGone => a.SeeNoQueue? && (InHand(s.parent, id) || s.parent == Tail(id)) && !s.link.open
    case Failed => a.Receive? && NextIs(s.link, id, Error)
    case ProtocolError => a.Receive?
    case Abandoned => a.Abandon? && (InHand(s.parent, id) || s.parent == Tail(id))
  }

  lemma EndedByStep(s: Sys, a: Action)
    ensures var t := Step(s, a);
            || t.log.ended == s.log.ended
            || exists id: nat, how :: t.log.ended == s.log.ended[id := how] && Causes(s, a, id, how)
  {
    if IsChildAction(a) {
      ChildLeavesLog(s, a);
    } else if a.Receive? {
      if s.link.results != [] { EndedByReceiving(s); }
    } else if a.TimeOut? {
      EndedByTimeOut(s);
    } else {
      EndedOtherwise(s, a);
    }
  }

  lemma EndedByReceiving(s: Sys)
    requires s.link.results != []
    ensures var t := ReceiveStep(s);
            || t.log.ended == s.log.ended
            || exists id: nat, how :: t.log.ended == s.log.ended[id := how] && Causes(s, Receive, id, how)
  {
    var m, u := s.link.results[0], s.(link := Popped(s.link));
    match s.parent
    case Streaming(id, _, draining) => if m.id == id { StreamEnds(s, u, id, draining, m.body); }
    case Tail(id) => if m.id == id { TailEnds(s, u, id, m.body); }
    case _ =>
  }

  lemma StreamEnds(s: Sys, u: Sys, id: nat, draining: bool, body: Body)
    requires NextIs(s.link, id, body) && s.parent.Streaming? && s.parent.id == id && s.parent.draining == draining
    requires u.log == s.log
    ensures var t := StreamReceives(u, id, draining, body);
            || t.log.ended == s.log.ended
            || exists how :: t.log.ended == s.log.ended[id := how] && Causes(s, Receive, id, how)
  {
    match body
    case Done => if draining { assert Causes(s, Receive, id, Cancelled); }
    case Event(_) =>
    case Error => assert Causes(s, Receive, id, Failed);
    case Result(_) => assert Causes(s, Receive, id, ProtocolError);
  }

  lemma TailEnds(s: Sys, u: Sys, id: nat, body: Body)
    requires NextIs(s.link, id, body) && s.parent == Tail(id) && u.log == s.log
    ensures var t := TailReceives(u, id, body);
            || t.log.ended == s.log.ended
            || exists how :: t.log.ended == s.log.ended[id := how] && Causes(s, Receive, id, how)
  {
    match body
    case Done =>
    case Event(_) => assert Causes(s, Receive, id, Completed);
    case Error => assert Causes(s, Receive, id, Failed);
    case Result(_) => assert Causes(s, Receive, id, ProtocolError);
  }

  lemma EndedByTimeOut(s: Sys)
    ensures var t := TimeOutStep(s);
            || t.log.ended == s.log.ended
            || exists id: nat, how :: t.log.ended == s.log.ended[id := how] && Causes(s, TimeOut, id, how)
  {
    if s.parent.Streaming? || s.parent.Awaiting? { assert Causes(s, TimeOut, s.parent.id, TimedOut); }
  }

  lemma EndedOtherwise(s: Sys, a: Action)
    requires !IsChildAction(a) && !a.Receive? && !a.TimeOut?
    ensures var t := Step(s, a);
            || t.log.ended == s.log.ended
            || exists id: nat, how :: t.log.ended == s.log.ended[id := how] && Causes(s, a, id, how)
  {
    match a
    case TailOver => if s.parent.Tail? { assert Causes(s, a, s.parent.id, Completed); }
    case ExpireDrain => if s.parent.Streaming? && s.parent.draining { assert Causes(s, a, s.parent.id, DrainExpired); }
    case SeeExit =>
      if s.parent.Streaming? || s.parent.Awaiting? {
        assert s.link.open && s.child == Dead ==> Causes(s, a, s.parent.id, WorkerExited);
      }
    case SeeNoQueue =>
      if s.parent.Streaming? || s.parent.Awaiting? || s.parent.Tail? {
        assert !s.link.open ==> Causes(s, a, s.parent.id, QueueGone);
      }
    case Abandon => if s.parent.Streaming? || s.parent.Tail? { assert Causes(s, a, s.parent.id, Abandoned); }
    case _ =>
  }

  predicate CausedAt(actions: seq<Action>, k: nat, id: nat, how: Ending) {
    k < |actions| && Causes(Run(actions[..k]), actions[k], id, how)
  }

  /** Each recorded ending has its cause in the run: a timeout has killed the worker, an exit was seen of a worker that
      was dead, a failure was queued by the child under this very request, and so on. */
  lemma {:induction false} EndingsHaveTheirCause(actions: seq<Action>, id: nat)
    requires id in Run(actions).log.ended
    ensures exists k: nat :: CausedAt(actions, k, id, Run(actions).log.ended[id])
  {
    if actions != [] {
      var n := |actions| - 1;
      var before, a := actions[..n], actions[n];
      var s := Run(before);
      EndedByStep(s, a);
      if id in s.log.ended && s.log.ended[id] == Run(actions).log.ended[id] {
        EndingsHaveTheirCause(before, id);
        var k: nat :| CausedAt(before, k, id, s.log.ended[id]);
        assert before[..k] == actions[..k];
        assert CausedAt(actions, k, id, s.log.ended[id]);
      } else {
        assert CausedAt(actions, n, id, Run(actions).log.ended[id]);
      }
    }
  }

  // ---------- a stream that breaks off is cancelled ----------

  function From(s: Sys, actions: seq<Action>): Sys {
    if actions == [] then s else Step(From(s, actions[..|actions| - 1]), actions[|actions| - 1])
  }

  lemma RunOneMore(first: seq<Action>, a: Action)
    ensures Run(first + [a]) == Step(Run(first), a)
  {
    var all := first + [a];
    assert all[..|all| - 1] == first && all[|all| - 1] == a;
  }

  lemma {:induction false} RunThenFrom(first: seq<Action>, more: seq<Action>)
    ensures Run(first + more) == From(Run(first), more)
  {
    if more == [] {
      assert first + more == first;
    } else {
      var front, a := more[..|more| - 1], more[|more| - 1];
      RunThenFrom(first, front);
      RunOneMore(first + front, a);
      assert first + front + [a] == first + more;
    }
  }

  lemma UnwindingByStep(s: Sys, a: Action, gen: nat)
    requires s.parent == Unwinding(gen)
    ensures var t := Step(s, a);
            t.parent == Unwinding(gen) || (t.parent == Free && a == Unwind && t.flag == gen && gen in t.log.written)
  {
    if IsChildAction(a) {
      ChildLeavesParent(s, a);
    } else if a.Receive? && s.link.results != [] {
      ReceiveFrame(s);
    }
  }

  lemma WrittenStays(s: Sys, a: Action, gen: nat)
    requires gen in s.log.written
    ensures gen in Step(s, a).log.written
  {
    if IsChildAction(a) {
      ChildLeavesLog(s, a);
    } else if a.Receive? && s.link.results != [] {
      ReceiveFrame(s);
    }
  }

  lemma {:induction false} UnwindingWrites(s: Sys, actions: seq<Action>, gen: nat)
    requires s.parent == Unwinding(gen)
    ensures var t := From(s, actions); t.parent == Unwinding(gen) || gen in t.log.written
  {
    if actions != [] {
      var before, a := actions[..|actions| - 1], actions[|actions| - 1];
      var r := From(s, before);
      UnwindingWrites(s, before, gen);
      if r.parent == Unwinding(gen) { UnwindingByStep(r, a, gen); } else { WrittenStays(r, a, gen); }
    }
  }

  /** A stream whose loop was left before its closing message, through a timeout, the worker's exit, the end of draining
      or its caller, writes its own generation into the cell before anything else can be asked of the worker. */
  lemma BrokenStreamsAreCancelled(first: seq<Action>, more: seq<Action>, gen: nat)
    requires Run(first).parent == Unwinding(gen)
    ensures Run(first + more).parent == Unwinding(gen) || gen in Run(first + more).log.written
  {
    RunThenFrom(first, more);
    UnwindingWrites(Run(first), more, gen);
  }

  /** And every stream that breaks off goes that way. */
  lemma BreakingOffUnwinds(s: Sys, a: Action)
    requires s.parent.Streaming? && Step(s, a).parent != s.parent && !a.Receive?
    ensures Step(s, a).parent == Unwinding(s.parent.gen) || Step(s, a).parent == s.parent.(draining := true)
  {
    if IsChildAction(a) { ChildLeavesParent(s, a); }
  }

  // ---------- nothing after a cancellation ----------

  /** The request has been issued, and nobody is yielding its items any more. */
  ghost predicate Silent(s: Sys, id: nat) {
    && id in s.link.issued && s.parent != Tail(id)
    && (s.parent.Streaming? && s.parent.id == id ==> s.parent.draining)
  }

  lemma StaysSilent(s: Sys, a: Action, id: nat)
    requires Inv(s) && Silent(s, id)
    ensures Silent(Step(s, a), id) && Known(Step(s, a).log.yielded, id) == Known(s.log.yielded, id)
  {
    assert IdsInv(s.link, HeldBy(s.child));
    if IsChildAction(a) {
      ChildLeavesParent(s, a);
      ChildLeavesLog(s, a);
    } else {
      ParentIssues(s, a);
      if a.Receive? && s.link.results != [] { ReceivesSilently(s, id); }
    }
  }

  lemma ReceivesSilently(s: Sys, id: nat)
    requires Silent(s, id) && s.link.results != []
    ensures Silent(ReceiveStep(s), id) && Known(ReceiveStep(s).log.yielded, id) == Known(s.log.yielded, id)
  {
  }

  lemma {:induction false} SilentFrom(s: Sys, more: seq<Action>, id: nat)
    requires Inv(s) && Silent(s, id)
    ensures Inv(From(s, more)) && Silent(From(s, more), id)
    ensures Known(From(s, more).log.yielded, id) == Known(s.log.yielded, id)
  {
    if more != [] {
      var front, a := more[..|more| - 1], more[|more| - 1];
      SilentFrom(s, front, id);
      StepKeepsInv(From(s, front), a);
      StaysSilent(From(s, front), a, id);
    }
  }

  /** Once its caller has seen a cancellation, or has left it, a stream yields nothing more, whatever its worker still
      sends. */
  lemma CancelledStreamsYieldNothingMore(first: seq<Action>, more: seq<Action>, id: nat)
    requires Silent(Run(first), id)
    ensures Silent(Run(first + more), id)
    ensures Known(Run(first + more).log.yielded, id) == Known(Run(first).log.yielded, id)
  {
    RunKeepsInv(first);
    RunThenFrom(first, more);
    SilentFrom(Run(first), more, id);
  }

  /** Behind the closing message nothing comes: the tail is waited for in vain. */
  lemma NothingComesInTheTail(actions: seq<Action>, id: nat, i: nat)
    requires Run(actions).parent == Tail(id) && i < |Run(actions).link.results|
    ensures Run(actions).link.results[i].id != id
  {
    var l := Run(actions).link;
    RunKeepsInv(actions);
    At(Run(actions), id);
    assert PhaseInv(Run(actions).parent, l, Run(actions).log);
    ClosedPrefixIsWhole(l.issued[id], Of(l.got, id), Of(l.queued, id));
    if l.results[i].id == id { InOf(l.results, i); }
  }

  lemma {:induction false} InOf(q: seq<Msg>, i: nat)
    requires i < |q|
    ensures Of(q, q[i].id) != []
  {
    if i < |q| - 1 { InOf(q[..|q| - 1], i); }
  }

  // ---------- workers that are gone ----------

  /** A kill, and the start of a new worker, leave nothing of the old one: no message, no command, no cancellation. */
  lemma NothingOutlivesAWorker(s: Sys)
    ensures var t := Step(s, Kill);
            t.child == Dead && !t.link.open && t.link.results == [] && t.link.commands == [] && t.flag == 0
            && !t.engineLoaded
    ensures var t := Step(s, Start);
            s.parent.Starting? && (!s.link.open || s.child == Dead) ==>
              t.child == Idle && t.link.open && t.link.results == [] && t.link.commands == [] && t.flag == 0
              && !t.engineLoaded
  {
  }

  /** A worker of these queues that has answered a shutdown is gone. */
  ghost predicate ShutDown(s: Sys, id: nat) {
    id in s.link.issued && s.link.issued[id].Shutdown? && id >= s.link.epochStart && Of(s.link.queued, id) != [] ==>
      s.child == Dead
  }

  lemma ShutDownByStep(s: Sys, a: Action, id: nat)
    requires Inv(s) && ShutDown(s, id)
    ensures ShutDown(Step(s, a), id)
  {
    At(s, id);
    assert IdsInv(s.link, HeldBy(s.child));
    if IsChildAction(a) {
      ChildLeavesParent(s, a);
      if HeldBy(s.child).Holds? && HeldBy(s.child).cmd.id == id {
        ShutDownByChild(s, a, id);
      } else {
        ChildAnswers(s, a, id);
        DeadStaysDead(s, a);
      }
    } else {
      ParentIssues(s, a);
      ParentLeavesStreams(s, a);
      WorkersByParent(s, a);
    }
  }

  lemma DeadStaysDead(s: Sys, a: Action)
    requires IsChildAction(a)
    ensures s.child == Dead ==> Step(s, a).child == Dead
    ensures Step(s, a).link.epochStart == s.link.epochStart
  {
  }

  lemma ShutDownByChild(s: Sys, a: Action, id: nat)
    requires ChildInv(s) && IsChildAction(a) && HeldBy(s.child).Holds? && HeldBy(s.child).cmd.id == id
    requires Of(s.link.queued, id) == [] || !s.link.issued[id].Shutdown?
    requires id in s.link.issued && s.link.issued[id] == HeldBy(s.child).cmd
    ensures ShutDown(Step(s, a), id)
  {
    ChildLeavesParent(s, a);
  }

  lemma WorkersByParent(s: Sys, a: Action)
    requires !IsChildAction(a)
    ensures var t := Step(s, a);
            t.child == Dead || t.child == s.child || (t.child == Idle && t.link.epochStart == s.link.nextId)
    ensures Step(s, a).link.epochStart in {s.link.epochStart, s.link.nextId}
  {
    if a.Receive? && s.link.results != [] { ReceiveFrame(s); }
  }

  /** A worker that has answered the shutdown of its queues takes no further command: it is gone. */
  lemma {:induction false} ShutdownIsTheEnd(actions: seq<Action>, id: nat)
    ensures ShutDown(Run(actions), id)
  {
    if actions != [] {
      var before := actions[..|actions| - 1];
      ShutdownIsTheEnd(before, id);
      RunKeepsInv(before);
      ShutDownByStep(Run(before), actions[|actions| - 1], id);
    }
  }

  // ---------- counting ----------

  function AudioAt(items: seq<Item>): set<int> {
    set i | 0 <= i < |items| && items[i].Dict? && items[i].kind == AudioKind
  }

  /** The count in the done event that is made up for a truncated stream is the number of its audio events. */
  lemma {:induction false} CountIsTheNumberOfAudioEvents(items: seq<Item>)
    ensures CountAudio(items) == |AudioAt(items)|
  {
    if items == [] {
      assert AudioAt(items) == {};
    } else {
      var n := |items| - 1;
      var front := items[..n];
      CountIsTheNumberOfAudioEvents(front);
      if items[n].Dict? && items[n].kind == AudioKind {
        assert AudioAt(items) == AudioAt(front) + {n};
      } else {
        assert AudioAt(items) == AudioAt(front);
      }
    }
  }
}

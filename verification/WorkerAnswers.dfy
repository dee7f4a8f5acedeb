/** What the worker hands out is what its engine gave it: each answer and each item goes back to a step of the
    engine. */
module WorkerAnswers {
  import opened WorkerProtocol
  import opened WorkerProtocolProofs

  /** In state `s` the action queues this message, which answers the command that the child is holding. */
  predicate Queues(s: Sys, a: Action, m: Msg) {
    && HeldBy(s.child).Holds? && HeldBy(s.child).cmd.id == m.id
    && match m.body
       case Result(value) => (a == Reply(value) && s.child.Calling?) || (a.Reply? && s.child.Unloading? && value == 0)
       case Error => a.Raise? && (s.child.Taken? ==> !s.engineLoaded || IsUnknown(s.child.cmd))
       case Event(item) => (a.PutItem? && s.child.Emitting? && item == s.child.item) || a.Repair?
       case Done => a.Finish? && s.child.Finishing?
  }

  predicate IsUnknown(cmd: Command) {
    cmd.Call? && cmd.op == Unknown
  }

  lemma QueuedByStep(s: Sys, a: Action)
    ensures var t := Step(s, a);
            || t.link.queued == s.link.queued
            || exists m :: t.link.queued == s.link.queued + [m] && Queues(s, a, m)
  {
    if IsChildAction(a) {
      var t := Step(s, a);
      ChildQueues(s, a);
      if t.link.queued != s.link.queued {
        var m := Msg(HeldBy(s.child).cmd.id, t.link.queued[|s.link.queued|].body);
        QueuedBody(s, a, m);
      }
    } else {
      ParentLeavesStreams(s, a);
    }
  }

  lemma QueuedBody(s: Sys, a: Action, m: Msg)
    requires IsChildAction(a) && HeldBy(s.child).Holds? && m.id == HeldBy(s.child).cmd.id
    requires Step(s, a).link.queued == s.link.queued + [m]
    ensures Queues(s, a, m)
  {
    var q := s.link.queued;
    assert (q + [m])[|q|] == m && Step(s, a).link.queued[|q|] == m;
  }

  /** The k-th step of the run queued this message. */
  predicate CameFrom(actions: seq<Action>, k: nat, m: Msg) {
    k < |actions| && Queues(Run(actions[..k]), actions[k], m)
  }

  ghost predicate HasOrigin(actions: seq<Action>, m: Msg) {
    exists k: nat :: CameFrom(actions, k, m)
  }

  lemma OriginStays(actions: seq<Action>, a: Action, m: Msg)
    requires HasOrigin(actions, m)
    ensures HasOrigin(actions + [a], m)
  {
    var k: nat :| CameFrom(actions, k, m);
    assert (actions + [a])[..k] == actions[..k];
    assert CameFrom(actions + [a], k, m);
  }

  lemma {:induction false} QueuedHasOrigin(actions: seq<Action>, i: nat)
    requires i < |Run(actions).link.queued|
    ensures HasOrigin(actions, Run(actions).link.queued[i])
  {
    if actions != [] {
      var n := |actions| - 1;
      var before, a := actions[..n], actions[n];
      var s := Run(before);
      assert actions == before + [a];
      QueuedByStep(s, a);
      if i < |s.link.queued| {
        QueuedHasOrigin(before, i);
        OriginStays(before, a, s.link.queued[i]);
      } else {
        assert CameFrom(actions, n, Run(actions).link.queued[i]);
      }
    }
  }

  lemma {:induction false} MessageOf(q: seq<Msg>, id: nat, body: Body) returns (i: nat)
    requires body in Of(q, id)
    ensures i < |q| && q[i] == Msg(id, body)
  {
    var n := |q| - 1;
    if body in Of(q[..n], id) { i := MessageOf(q[..n], id, body); } else { i := n; }
  }

  lemma IssuedStays(s: Sys, a: Action, id: nat)
    requires id in s.link.issued && id < s.link.nextId
    ensures id in Step(s, a).link.issued && Step(s, a).link.issued[id] == s.link.issued[id]
  {
    if IsChildAction(a) { ChildLeavesParent(s, a); } else { ParentIssues(s, a); }
  }

  lemma {:induction false} IssuedForGood(actions: seq<Action>, k: nat, id: nat)
    requires k <= |actions| && id in Run(actions[..k]).link.issued
    ensures id in Run(actions).link.issued && Run(actions).link.issued[id] == Run(actions[..k]).link.issued[id]
  {
    if k == |actions| {
      assert actions[..k] == actions;
    } else {
      var before := actions[..|actions| - 1];
      assert before[..k] == actions[..k];
      IssuedForGood(before, k, id);
      RunKeepsInv(before);
      assert IdsInv(Run(before).link, HeldBy(Run(before).child));
      IssuedStays(Run(before), actions[|actions| - 1], id);
    }
  }

  /** Each answer goes back to a step in which the child was holding the very command that it answers. */
  lemma AnswerOrigin(actions: seq<Action>, id: nat) returns (k: nat)
    requires id in Run(actions).log.answers
    ensures id in Run(actions).link.issued && CameFrom(actions, k, Msg(id, Run(actions).log.answers[id]))
    ensures HeldBy(Run(actions[..k]).child) == Holds(Run(actions).link.issued[id]) && Formed(Run(actions[..k]).child)
  {
    var s := Run(actions);
    CallsGetTheirOwnAnswer(actions, id);
    assert s.log.answers[id] in Of(s.link.queued, id);
    var i := MessageOf(s.link.queued, id, s.log.answers[id]);
    QueuedHasOrigin(actions, i);
    k :| CameFrom(actions, k, Msg(id, s.log.answers[id]));
    RunKeepsInv(actions[..k]);
    IssuedForGood(actions, k, id);
  }

  /** The child's work on the command ends like this: a call returns the value or raises, or is refused because there is
      no engine or no such operation; or unloading for a shutdown returns or raises. */
  predicate Ends(s: Sys, a: Action, cmd: Command, answer: Body) {
    match answer
    case Result(value) =>
      if cmd.Call? then a == Reply(value) && s.child == Calling(cmd)
      else cmd.Shutdown? && a.Reply? && value == 0 && s.child == Unloading(cmd)
    case Error =>
      && a == Raise
      && (if cmd.Call? then s.child == Calling(cmd) || (s.child == Taken(cmd) && (!s.engineLoaded || IsUnknown(cmd)))
          else cmd.Shutdown? && s.child == Unloading(cmd))
    case _ => false
  }

  predicate EndsAt(actions: seq<Action>, k: nat, cmd: Command, answer: Body) {
    k < |actions| && Ends(Run(actions[..k]), actions[k], cmd, answer)
  }

  lemma OriginEnds(s: Sys, a: Action, cmd: Command, answer: Body)
    requires Queues(s, a, Msg(cmd.id, answer)) && HeldBy(s.child) == Holds(cmd) && Formed(s.child) && !cmd.Stream?
    requires answer.Result? || answer.Error?
    ensures Ends(s, a, cmd, answer)
  {
  }

  /** Whoever asked gets what the engine gave for that very command: a result is the value that it returned while the
      child was working on the command, and an error means that the child's work on the command raised. */
  lemma CallsGetTheEnginesAnswer(actions: seq<Action>, id: nat)
    requires id in Run(actions).log.answers
    ensures var s := Run(actions);
            id in s.link.issued && exists k: nat :: EndsAt(actions, k, s.link.issued[id], s.log.answers[id])
  {
    var s := Run(actions);
    RunKeepsInv(actions);
    At(s, id);
    var cmd, answer := s.link.issued[id], s.log.answers[id];
    CallsGetTheirOwnAnswer(actions, id);
    var k := AnswerOrigin(actions, id);
    assert IdsInv(s.link, HeldBy(s.child));
    OriginEnds(Run(actions[..k]), actions[k], cmd, answer);
    assert EndsAt(actions, k, cmd, answer);
  }

  lemma {:induction false} NoUnknownCalls(actions: seq<Action>)
    ensures var child := Run(actions).child; child.Calling? ==> !IsUnknown(child.cmd)
  {
    if actions != [] {
      var before, a := actions[..|actions| - 1], actions[|actions| - 1];
      NoUnknownCalls(before);
      CallingByStep(Run(before), a);
    }
  }

  lemma CallingByStep(s: Sys, a: Action)
    requires s.child.Calling? ==> !IsUnknown(s.child.cmd)
    ensures var child := Step(s, a).child; child.Calling? ==> !IsUnknown(child.cmd)
  {
    if !IsChildAction(a) { ParentLeavesStreams(s, a); }
  }

  /** A command that the child does not know is answered with an error, never with a result. */
  lemma UnknownCommandsFail(actions: seq<Action>, id: nat)
    requires id in Run(actions).log.answers && id in Run(actions).link.issued && IsUnknown(Run(actions).link.issued[id])
    ensures Run(actions).log.answers[id].Error?
  {
    CallsGetTheEnginesAnswer(actions, id);
    var s := Run(actions);
    var k: nat :| EndsAt(actions, k, s.link.issued[id], s.log.answers[id]);
    NoUnknownCalls(actions[..k]);
  }

  // ---------- what a stream's engine produced ----------

  /** What the engine yielded for a request since the child took it on. */
  function EngineItems(actions: seq<Action>, id: nat): seq<Item> {
    if actions == [] then []
    else
      var before, a := actions[..|actions| - 1], actions[|actions| - 1];
      var child := Run(before).child;
      if a == EngineReady && child.Taken? && child.cmd.Stream? && child.cmd.id == id then []
      else if a.Produce? && child.Iterating? && child.w.id == id then EngineItems(before, id) + [a.item]
      else EngineItems(before, id)
  }

  lemma ProducedByStep(s: Sys, a: Action, id: nat)
    ensures Known(Step(s, a).log.produced, id) ==
            if a == EngineReady && s.child.Taken? && s.child.cmd.Stream? && s.child.cmd.id == id then []
            else if a.Produce? && s.child.Iterating? && s.child.w.id == id then Known(s.log.produced, id) + [a.item]
            else Known(s.log.produced, id)
  {
    if !IsChildAction(a) { ParentLeavesStreams(s, a); }
  }

  /** The items that the theorems about streams speak of are those that the engine yielded. */
  lemma {:induction false} ProducedIsWhatTheEngineYielded(actions: seq<Action>, id: nat)
    ensures Known(Run(actions).log.produced, id) == EngineItems(actions, id)
  {
    if actions != [] {
      var before := actions[..|actions| - 1];
      ProducedIsWhatTheEngineYielded(before, id);
      ProducedByStep(Run(before), actions[|actions| - 1], id);
    }
  }

  // ---------- what was asked ----------

  predicate Asks(a: Action, req: Request) {
    match req
    case CallRequest(op) => a == BeginCall(op)
    case StreamRequest(_) => a == BeginStream
  }

  predicate AskedAt(actions: seq<Action>, k: nat, req: Request) {
    k < |actions| && Run(actions[..k]).parent == Free && Asks(actions[k], req)
    && (req.StreamRequest? ==> req.gen == Run(actions[..k]).generation + 1)
  }

  ghost predicate Asked(actions: seq<Action>, req: Request) {
    exists k: nat :: AskedAt(actions, k, req)
  }

  function RequestOf(cmd: Command): Request
    requires !cmd.Shutdown?
  {
    if cmd.Call? then CallRequest(cmd.op) else StreamRequest(cmd.gen)
  }

  ghost predicate InHandAsked(actions: seq<Action>) {
    var p := Run(actions).parent;
    p.Starting? || p.Sending? ==> Asked(actions, p.req)
  }

  ghost predicate IssuedAsked(actions: seq<Action>, id: nat) {
    var issued := Run(actions).link.issued;
    id in issued && !issued[id].Shutdown? ==> Asked(actions, RequestOf(issued[id]))
  }

  lemma AskedStays(actions: seq<Action>, a: Action, req: Request)
    requires Asked(actions, req)
    ensures Asked(actions + [a], req)
  {
    var k: nat :| AskedAt(actions, k, req);
    assert (actions + [a])[..k] == actions[..k];
    assert AskedAt(actions + [a], k, req);
  }

  /** A request comes to hand when it is asked for, and a command is issued for the request in hand. */
  lemma RequestsByStep(s: Sys, a: Action)
    ensures var p, t := s.parent, Step(s, a);
            && (t.parent.Starting? || t.parent.Sending? ==>
                  ((p.Starting? || p.Sending?) && t.parent.req == p.req)
                  || (p == Free && Asks(a, t.parent.req)
                      && (t.parent.req.StreamRequest? ==> t.parent.req.gen == s.generation + 1)))
            && forall id :: id in t.link.issued && !t.link.issued[id].Shutdown? ==>
                 (id in s.link.issued && s.link.issued[id] == t.link.issued[id])
                 || (p.Sending? && RequestOf(t.link.issued[id]) == p.req)
  {
    if IsChildAction(a) {
      ChildLeavesParent(s, a);
    } else if a.Receive? && s.link.results != [] {
      ReceiveFrame(s);
    }
  }

  /** Each command carries what its caller asked for: the operation of a call, and the generation of a stream. */
  lemma {:induction false} CommandsAreWhatWasAsked(actions: seq<Action>)
    ensures InHandAsked(actions) && forall id: nat :: IssuedAsked(actions, id)
  {
    if actions != [] {
      var n := |actions| - 1;
      var before, a := actions[..n], actions[n];
      assert actions == before + [a];
      CommandsAreWhatWasAsked(before);
      RequestsByStep(Run(before), a);
      var p, t := Run(before).parent, Run(actions);
      if p.Starting? || p.Sending? { AskedStays(before, a, p.req); }
      if (t.parent.Starting? || t.parent.Sending?) && p == Free { assert AskedAt(actions, n, t.parent.req); }
      forall id: nat ensures IssuedAsked(actions, id) {
        assert IssuedAsked(before, id);
        var issued := Run(before).link.issued;
        if id in issued && !issued[id].Shutdown? { AskedStays(before, a, RequestOf(issued[id])); }
      }
    }
  }
}

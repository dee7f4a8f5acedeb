/** What every interleaving of the worker protocol keeps, and what follows for streams, calls and cancellations. */
module WorkerProtocolProofs {
  import opened WorkerProtocol

  // ---------- queues seen one id at a time ----------

  lemma OfPut(q: seq<Msg>, m: Msg)
    ensures forall id :: Of(q + [m], id) == if m.id == id then Of(q, id) + [m.body] else Of(q, id)
  {
    assert (q + [m])[..|q|] == q;
  }

  lemma {:induction false} OfHead(m: Msg, q: seq<Msg>, id: nat)
    ensures Of([m] + q, id) == (if m.id == id then [m.body] else []) + Of(q, id)
  {
    if q == [] {
      assert [m] + q == [m];
      assert [m][..0] == [];
    } else {
      var front := q[..|q| - 1];
      OfHead(m, front, id);
      assert ([m] + q)[..|q|] == [m] + front;
    }
  }

  lemma OfPop(q: seq<Msg>)
    requires q != []
    ensures forall id :: Of(q, id) == (if q[0].id == id then [q[0].body] else []) + Of(q[1..], id)
  {
    forall id ensures Of(q, id) == (if q[0].id == id then [q[0].body] else []) + Of(q[1..], id) {
      OfHead(q[0], q[1..], id);
      assert [q[0]] + q[1..] == q;
    }
  }

  lemma ItemsPut(bs: seq<Body>, b: Body)
    ensures Items(bs + [b]) == Items(bs) + (if b.Event? then [b.item] else [])
  {
    assert (bs + [b])[..|bs|] == bs;
  }

  lemma {:induction false} ItemsPrefix(bs: seq<Body>, cs: seq<Body>)
    requires bs <= cs
    ensures Items(bs) <= Items(cs)
    decreases |cs|
  {
    if bs == cs {
    } else {
      ItemsPrefix(bs, cs[..|cs| - 1]);
    }
  }

  // ---------- what every step keeps about the queues ----------

  datatype Held = Nothing | Holds(cmd: Command)

  /** The command whose answer the child is still giving. */
  function HeldBy(c: Child): Held {
    match c
    case Taken(cmd) => Holds(cmd)
    case Calling(cmd) => Holds(cmd)
    case Iterating(w) => Holds(Stream(w.id, w.gen))
    case Emitting(w, _) => Holds(Stream(w.id, w.gen))
    case Leaving(w, _) => Holds(Stream(w.id, w.gen))
    case RepairError(w) => Holds(Stream(w.id, w.gen))
    case RepairDone(w) => Holds(Stream(w.id, w.gen))
    case Finishing(w) => Holds(Stream(w.id, w.gen))
    case Unloading(cmd) => Holds(cmd)
    case _ => Nothing
  }

  ghost predicate InEpoch(l: Link, cmd: Command) {
    cmd.id >= l.epochStart && cmd.id in l.issued && l.issued[cmd.id] == cmd
  }

  /** Ids are used once and the command queue is in order of issue, after the command that is being answered. */
  ghost predicate IdsInv(l: Link, h: Held) {
    && l.epochStart <= l.nextId
    && (forall id :: id in l.issued ==> id < l.nextId && l.issued[id].id == id)
    && (forall i :: 0 <= i < |l.commands| ==> InEpoch(l, l.commands[i]))
    && (forall i, j :: 0 <= i < j < |l.commands| ==> l.commands[i].id < l.commands[j].id)
    && (h.Holds? ==> InEpoch(l, h.cmd) && forall i :: 0 <= i < |l.commands| ==> h.cmd.id < l.commands[i].id)
  }

  ghost predicate Pending(l: Link, id: nat) {
    exists i :: 0 <= i < |l.commands| && l.commands[i].id == id
  }

  ghost predicate AnsweredOrOpen(l: Link, h: Held, id: nat) {
    Closed(Of(l.queued, id)) || Pending(l, id) || (h.Holds? && h.cmd.id == id)
  }

  /** Every answer suits its command; the held one is open, and every other command taken has been closed. */
  ghost predicate AnswerAt(l: Link, h: Held, alive: bool, id: nat) {
    && (id !in l.issued ==> Of(l.queued, id) == [])
    && (id in l.issued ==> SuitsCommand(l.issued[id], Of(l.queued, id)))
    && (Pending(l, id) ==> Of(l.queued, id) == [])
    && (h.Holds? && h.cmd.id == id ==> AllEvents(Of(l.queued, id)) && (!h.cmd.Stream? ==> Of(l.queued, id) == []))
    && (alive && id in l.issued && id >= l.epochStart ==> AnsweredOrOpen(l, h, id))
  }

  ghost predicate AnswerInv(l: Link, h: Held, alive: bool) {
    forall id: nat :: AnswerAt(l, h, alive, id)
  }

  /** Messages of the present queues were received or are waiting, in order; older ones were received first or lost. */
  ghost predicate Flows(l: Link, id: nat) {
    if id >= l.epochStart then Of(l.queued, id) == Of(l.got, id) + Of(l.results, id)
    else Of(l.got, id) <= Of(l.queued, id) && Of(l.results, id) == []
  }

  ghost predicate FlowInv(l: Link) {
    forall id: nat :: Flows(l, id)
  }

  ghost predicate OpenInv(l: Link, h: Held, alive: bool) {
    && (!alive ==> h == Nothing)
    && (!l.open ==> !alive && l.commands == [] && l.results == [])
  }

  ghost predicate LinkInv(l: Link, h: Held, alive: bool) {
    IdsInv(l, h) && AnswerInv(l, h, alive) && FlowInv(l) && OpenInv(l, h, alive)
  }

  lemma ClearKeeps(l: Link, h: Held, alive: bool, open: bool)
    requires LinkInv(l, h, alive)
    ensures LinkInv(Cleared(l, open), Nothing, open)
  {
    forall id: nat ensures Flows(Cleared(l, open), id) && AnswerAt(Cleared(l, open), Nothing, open, id) {
      assert Flows(l, id) && AnswerAt(l, h, alive, id);
    }
  }

  lemma PostIds(l: Link, h: Held, cmd: Command)
    requires IdsInv(l, h) && cmd.id == l.nextId
    ensures IdsInv(Posted(l, cmd), h)
  {
  }

  lemma PostAnswers(l: Link, h: Held, alive: bool, cmd: Command)
    requires IdsInv(l, h) && AnswerInv(l, h, alive) && cmd.id == l.nextId
    ensures AnswerInv(Posted(l, cmd), h, alive)
  {
    var t := Posted(l, cmd);
    assert t.commands[|l.commands|] == cmd;
    forall id: nat ensures AnswerAt(t, h, alive, id) {
      assert AnswerAt(l, h, alive, id);
      if Pending(l, id) {
        var i :| 0 <= i < |l.commands| && l.commands[i].id == id;
        assert t.commands[i].id == id;
      }
    }
  }

  lemma PostKeeps(l: Link, h: Held, alive: bool, cmd: Command)
    requires LinkInv(l, h, alive) && l.open && cmd.id == l.nextId
    ensures LinkInv(Posted(l, cmd), h, alive)
  {
    PostIds(l, h, cmd);
    PostAnswers(l, h, alive, cmd);
    forall id: nat ensures Flows(Posted(l, cmd), id) {
      assert Flows(l, id);
    }
  }

  lemma PopFlows(l: Link)
    requires FlowInv(l) && l.results != []
    ensures FlowInv(Popped(l))
  {
    OfPop(l.results);
    OfPut(l.got, l.results[0]);
    forall id: nat ensures Flows(Popped(l), id) {
      assert Flows(l, id);
    }
  }

  lemma PopKeeps(l: Link, h: Held, alive: bool)
    requires LinkInv(l, h, alive) && l.results != []
    ensures LinkInv(Popped(l), h, alive)
  {
    PopFlows(l);
    forall id: nat ensures AnswerAt(Popped(l), h, alive, id) {
      assert AnswerAt(l, h, alive, id);
    }
  }

  lemma PullAnswers(l: Link)
    requires IdsInv(l, Nothing) && AnswerInv(l, Nothing, true) && l.commands != []
    ensures AnswerInv(Pulled(l), Holds(l.commands[0]), true)
  {
    var t, h := Pulled(l), Holds(l.commands[0]);
    forall id: nat ensures AnswerAt(t, h, true, id) {
      assert AnswerAt(l, Nothing, true, id);
      if Pending(l, id) {
        var i :| 0 <= i < |l.commands| && l.commands[i].id == id;
        if i > 0 { assert t.commands[i - 1].id == id; }
      }
    }
  }

  lemma PullKeeps(l: Link)
    requires LinkInv(l, Nothing, true) && l.commands != []
    ensures LinkInv(Pulled(l), Holds(l.commands[0]), true)
  {
    PullAnswers(l);
    forall id: nat ensures Flows(Pulled(l), id) {
      assert Flows(l, id);
    }
  }

  lemma PutFlows(l: Link, m: Msg)
    requires m.id >= l.epochStart && FlowInv(l)
    ensures FlowInv(Put(l, m))
  {
    OfPut(l.queued, m);
    OfPut(l.results, m);
    forall id: nat ensures Flows(Put(l, m), id) {
      assert Flows(l, id);
    }
  }

  lemma SuitsMore(cmd: Command, bs: seq<Body>, b: Body)
    requires SuitsCommand(cmd, bs) && AllEvents(bs)
    requires if cmd.Stream? then !b.Result? else bs == [] && (b.Result? || b.Error?)
    ensures SuitsCommand(cmd, bs + [b])
    ensures b.Event? ==> AllEvents(bs + [b])
    ensures !b.Event? ==> Closed(bs + [b])
  {
    assert (bs + [b])[..|bs|] == bs;
  }

  /** Another message of the held command; a closing one gives the command up. */
  lemma PutAnswers(l: Link, cmd: Command, b: Body, h: Held, alive: bool)
    requires IdsInv(l, Holds(cmd)) && AnswerInv(l, Holds(cmd), true)
    requires if cmd.Stream? then !b.Result? else b.Result? || b.Error?
    requires h == if b.Event? then Holds(cmd) else Nothing
    ensures AnswerInv(Put(l, Msg(cmd.id, b)), h, alive)
  {
    var t := Put(l, Msg(cmd.id, b));
    OfPut(l.queued, Msg(cmd.id, b));
    assert AnswerAt(l, Holds(cmd), true, cmd.id);
    SuitsMore(cmd, Of(l.queued, cmd.id), b);
    forall id: nat ensures AnswerAt(t, h, alive, id) {
      assert AnswerAt(l, Holds(cmd), true, id);
    }
  }

  lemma PutIds(l: Link, cmd: Command, b: Body, h: Held)
    requires IdsInv(l, Holds(cmd)) && (h == Holds(cmd) || h == Nothing)
    ensures IdsInv(Put(l, Msg(cmd.id, b)), h)
  {
  }

  lemma PutKeeps(l: Link, cmd: Command, b: Body, h: Held, alive: bool)
    requires LinkInv(l, Holds(cmd), true) && (b.Event? ==> alive)
    requires if cmd.Stream? then !b.Result? else b.Result? || b.Error?
    requires h == if b.Event? then Holds(cmd) else Nothing
    ensures LinkInv(Put(l, Msg(cmd.id, b)), h, alive)
  {
    PutIds(l, cmd, b, h);
    PutAnswers(l, cmd, b, h, alive);
    PutFlows(l, Msg(cmd.id, b));
  }

  // ---------- every step is one of these ----------

  ghost predicate Puts(l: Link, c: Child, l': Link, c': Child, b: Body) {
    && HeldBy(c).Holds?
    && l' == Put(l, Msg(HeldBy(c).cmd.id, b))
    && HeldBy(c') == (if b.Event? then HeldBy(c) else Nothing)
    && (if HeldBy(c).cmd.Stream? then !b.Result? else b.Result? || b.Error?)
  }

  ghost predicate StayMove(l: Link, c: Child, l': Link, c': Child) {
    l' == l && (c' == Dead || (HeldBy(c') == HeldBy(c) && c != Dead))
  }

  ghost predicate PullMove(l: Link, c: Child, l': Link, c': Child) {
    l.commands != [] && l' == Pulled(l) && c == Idle && c' != Dead && HeldBy(c') == Holds(l.commands[0])
  }

  ghost predicate PutMove(l: Link, c: Child, l': Link, c': Child) {
    c != Dead && exists b :: Puts(l, c, l', c', b) && (b.Event? ==> c' != Dead)
  }

  ghost predicate ClearMove(l: Link, c: Child, l': Link, c': Child) {
    l' == Cleared(l, l'.open) && c' == if l'.open then Idle else Dead
  }

  ghost predicate PostMove(l: Link, c: Child, l': Link, c': Child) {
    c' == c && l.open && exists cmd: Command :: cmd.id == l.nextId && l' == Posted(l, cmd)
  }

  ghost predicate PopMove(l: Link, c: Child, l': Link, c': Child) {
    c' == c && l.results != [] && l' == Popped(l)
  }

  ghost predicate Move(l: Link, c: Child, l': Link, c': Child) {
    || StayMove(l, c, l', c') || PullMove(l, c, l', c') || PutMove(l, c, l', c')
    || ClearMove(l, c, l', c') || PostMove(l, c, l', c') || PopMove(l, c, l', c')
  }

  ghost predicate Formed(c: Child) {
    (c.Taken? ==> !c.cmd.Shutdown?) && (c.Calling? ==> c.cmd.Call?) && (c.Unloading? ==> c.cmd.Shutdown?)
  }

  lemma ChildMovesQuietly(s: Sys, a: Action)
    requires IsChildAction(a) && Formed(s.child) && Step(s, a).link == s.link
    ensures StayMove(s.link, s.child, s.link, Step(s, a).child) && Formed(Step(s, a).child)
  {
    var t := Step(s, a);
    assert |t.link.results| == |s.link.results| && |t.link.commands| == |s.link.commands|;
  }

  lemma ChildPuts(s: Sys, a: Action)
    requires IsChildAction(a) && !a.Take? && Formed(s.child) && Step(s, a).link != s.link
    ensures PutMove(s.link, s.child, Step(s, a).link, Step(s, a).child) && Formed(Step(s, a).child)
  {
    var t := Step(s, a);
    match a
    case Raise => assert Puts(s.link, s.child, t.link, t.child, Error);
    case Reply(value) =>
      if s.child.Calling? { assert Puts(s.link, s.child, t.link, t.child, Result(value)); }
      else { assert Puts(s.link, s.child, t.link, t.child, Result(0)); }
    case PutItem => assert Puts(s.link, s.child, t.link, t.child, Event(s.child.item));
    case Repair =>
      if s.child.RepairError? { assert Puts(s.link, s.child, t.link, t.child, Event(Dict(SegmentErrorKind, 0))); }
      else { assert Puts(s.link, s.child, t.link, t.child, Event(Dict(DoneKind, s.child.w.audio))); }
    case Finish => assert Puts(s.link, s.child, t.link, t.child, Done);
    case _ =>
  }

  lemma ChildMoves(s: Sys, a: Action)
    requires IsChildAction(a) && Formed(s.child)
    ensures Move(s.link, s.child, Step(s, a).link, Step(s, a).child) && Formed(Step(s, a).child)
  {
    if Step(s, a).link == s.link {
      ChildMovesQuietly(s, a);
    } else if !a.Take? {
      ChildPuts(s, a);
    }
  }

  lemma ParentMoves(s: Sys, a: Action)
    requires !IsChildAction(a) && Formed(s.child) && s.link.epochStart <= s.link.nextId
    ensures Move(s.link, s.child, Step(s, a).link, Step(s, a).child) && Formed(Step(s, a).child)
  {
    var l, t := s.link, Step(s, a);
    if t.link.nextId > l.nextId {
      assert t.link == Posted(l, t.link.commands[|l.commands|]);
    }
  }

  ghost predicate ChildInv(s: Sys) {
    Kept(s.link, s.child) && Formed(s.child)
  }

  ghost predicate Kept(l: Link, c: Child) {
    LinkInv(l, HeldBy(c), c != Dead)
  }

  lemma StayKeeps(l: Link, c: Child, l': Link, c': Child)
    requires Kept(l, c) && StayMove(l, c, l', c')
    ensures Kept(l', c')
  {
    var h, alive, h', alive' := HeldBy(c), c != Dead, HeldBy(c'), c' != Dead;
    forall id: nat ensures AnswerAt(l', h', alive', id) {
      assert AnswerAt(l, h, alive, id);
    }
  }

  lemma PutMoveKeeps(l: Link, c: Child, l': Link, c': Child)
    requires Kept(l, c) && PutMove(l, c, l', c')
    ensures Kept(l', c')
  {
    var b :| Puts(l, c, l', c', b) && (b.Event? ==> c' != Dead);
    PutKeeps(l, HeldBy(c).cmd, b, HeldBy(c'), c' != Dead);
  }

  lemma PostMoveKeeps(l: Link, c: Child, l': Link, c': Child)
    requires Kept(l, c) && PostMove(l, c, l', c')
    ensures Kept(l', c')
  {
    var cmd: Command :| cmd.id == l.nextId && l' == Posted(l, cmd);
    PostKeeps(l, HeldBy(c), c != Dead, cmd);
  }

  lemma MoveKeeps(l: Link, c: Child, l': Link, c': Child)
    requires Kept(l, c) && Move(l, c, l', c')
    ensures Kept(l', c')
  {
    if StayMove(l, c, l', c') {
      StayKeeps(l, c, l', c');
    } else if PullMove(l, c, l', c') {
      PullKeeps(l);
    } else if PutMove(l, c, l', c') {
      PutMoveKeeps(l, c, l', c');
    } else if ClearMove(l, c, l', c') {
      ClearKeeps(l, HeldBy(c), c != Dead, l'.open);
    } else if PostMove(l, c, l', c') {
      PostMoveKeeps(l, c, l', c');
    } else {
      PopKeeps(l, HeldBy(c), c != Dead);
    }
  }

  lemma ChildInvStep(s: Sys, a: Action)
    requires ChildInv(s)
    ensures ChildInv(Step(s, a))
  {
    if IsChildAction(a) { ChildMoves(s, a); } else { ParentMoves(s, a); }
    MoveKeeps(s.link, s.child, Step(s, a).link, Step(s, a).child);
  }

  // ---------- what the holder of the request lock has received ----------

  /** A stream that is being received, or was received to its end, has yielded all its events received so far. */
  ghost predicate YieldedAll(l: Link, g: Log, id: nat) {
    id in g.yielded && g.yielded[id] == Items(Of(l.got, id))
  }

  ghost predicate EndsDone(bs: seq<Body>) {
    bs != [] && bs[|bs| - 1].Done?
  }

  ghost predicate PhaseInv(p: Parent, l: Link, g: Log) {
    match p
    case Streaming(id, gen, draining) =>
      && id in l.issued && l.issued[id] == Stream(id, gen) && id in g.yielded
      && AllEvents(Of(l.got, id)) && (!draining ==> YieldedAll(l, g, id))
    case Tail(id) => id in l.issued && l.issued[id].Stream? && EndsDone(Of(l.got, id)) && YieldedAll(l, g, id)
    case Awaiting(id) => id in l.issued && !l.issued[id].Stream? && Of(l.got, id) == []
    case Closing(id) => id in l.issued && l.issued[id].Shutdown? && Of(l.got, id) == []
    case _ => true
  }

  ghost predicate YieldOk(l: Link, g: Log, id: nat) {
    && (id in g.yielded ==> id in l.issued && l.issued[id].Stream? && g.yielded[id] <= Items(Of(l.got, id)))
    && (id in g.ended ==> g.ended[id] != ProtocolError)
    && (id in g.ended && g.ended[id] == Completed ==> EndsDone(Of(l.got, id)) && YieldedAll(l, g, id))
    && (id in g.answers ==> id in l.issued && !l.issued[id].Stream? && Of(l.queued, id) == [g.answers[id]])
  }

  ghost predicate YieldInv(l: Link, g: Log) {
    forall id: nat :: YieldOk(l, g, id)
  }

  /** Reading one more message of an answer that suits its command. */
  lemma NextOfAnswer(cmd: Command, bs: seq<Body>, b: Body, rest: seq<Body>)
    requires SuitsCommand(cmd, bs + [b] + rest)
    ensures AllEvents(bs)
    ensures b.Event? ==> AllEvents(bs + [b]) && cmd.Stream?
    ensures !b.Event? ==> rest == []
    ensures cmd.Stream? ==> !b.Result?
    ensures !cmd.Stream? ==> bs == [] && rest == [] && (b.Result? || b.Error?)
  {
    var cs := bs + [b] + rest;
    assert forall i :: 0 <= i < |bs| ==> cs[..|cs| - 1][i] == bs[i];
    assert cs[|bs|] == b;
    if rest != [] {
      assert cs[..|cs| - 1][|bs|] == b;
      assert cs[|cs| - 1] == rest[|rest| - 1];
    } else {
      assert cs[|cs| - 1] == b;
    }
  }

  /** The head of the result queue, if it is for `id`, continues what was received for `id`. */
  lemma HeadContinues(l: Link, id: nat)
    requires FlowInv(l) && l.results != [] && l.results[0].id == id
    ensures Of(l.queued, id) == Of(l.got, id) + [l.results[0].body] + Of(l.results[1..], id)
    ensures Of(Popped(l).got, id) == Of(l.got, id) + [l.results[0].body]
  {
    OfPop(l.results);
    OfPut(l.got, l.results[0]);
    assert Flows(l, id);
  }

  lemma PopKeepsYield(l: Link, g: Log, id: nat)
    requires YieldOk(l, g, id) && FlowInv(l) && l.results != []
    requires id in l.issued ==> SuitsCommand(l.issued[id], Of(l.queued, id))
    ensures YieldOk(Popped(l), g, id)
    ensures id != l.results[0].id ==> Of(Popped(l).got, id) == Of(l.got, id)
  {
    var m := l.results[0];
    if m.id == id {
      var bs := Of(l.got, id);
      HeadContinues(l, id);
      assert Of(Popped(l).got, id) == bs + [m.body];
      ItemsPut(bs, m.body);
      assert Items(bs) <= Items(bs + [m.body]);
      if id in l.issued {
        NextOfAnswer(l.issued[id], bs, m.body, Of(l.results[1..], id));
        assert !EndsDone(bs);
      }
    } else {
      OfPut(l.got, m);
    }
  }

  /** What the queue invariant says about one id. */
  lemma AnswersOf(s: Sys, id: nat)
    requires ChildInv(s)
    ensures AnswerAt(s.link, HeldBy(s.child), s.child != Dead, id) && Flows(s.link, id)
  {
  }

  lemma NextIdIsFresh(s: Sys)
    requires ChildInv(s)
    ensures s.link.nextId !in s.link.issued
    ensures Of(s.link.queued, s.link.nextId) == [] && Of(s.link.got, s.link.nextId) == []
  {
    AnswersOf(s, s.link.nextId);
  }

  ghost predicate ParentInv(s: Sys) {
    PhaseInv(s.parent, s.link, s.log) && YieldInv(s.link, s.log)
  }

  /** What the parent may rely on when it takes a message: whether it is its own, and which kinds it can be. */
  ghost predicate Received(s: Sys, id: nat) {
    var l := s.link;
    && l.results != [] && YieldInv(Popped(l), s.log)
    && (l.results[0].id != id ==> Of(Popped(l).got, id) == Of(l.got, id))
    && (l.results[0].id == id && id in l.issued ==>
          && Of(Popped(l).got, id) == Of(l.got, id) + [l.results[0].body]
          && AllEvents(Of(l.got, id))
          && (if l.issued[id].Stream? then !l.results[0].body.Result?
              else Of(l.queued, id) == [l.results[0].body]))
  }

  lemma Receives(s: Sys, id: nat)
    requires ChildInv(s) && ParentInv(s) && s.link.results != []
    ensures Received(s, id)
  {
    var l := s.link;
    forall i: nat
      ensures YieldOk(Popped(l), s.log, i) && (i != l.results[0].id ==> Of(Popped(l).got, i) == Of(l.got, i))
    {
      AnswersOf(s, i);
      PopKeepsYield(l, s.log, i);
    }
    if l.results[0].id == id && id in l.issued {
      AnswersOf(s, id);
      HeadContinues(l, id);
      NextOfAnswer(l.issued[id], Of(l.got, id), l.results[0].body, Of(l.results[1..], id));
    }
  }

  ghost predicate SameAt(g: Log, g': Log, i: nat) {
    && (i in g'.yielded ==> i in g.yielded && g.yielded[i] == g'.yielded[i])
    && (i in g'.ended ==> i in g.ended && g.ended[i] == g'.ended[i])
    && (i in g'.answers ==> i in g.answers && g.answers[i] == g'.answers[i])
    && (i in g.yielded ==> i in g'.yielded)
  }

  /** Only what is written about one id has to be looked at. */
  lemma YieldsBut(l: Link, g: Log, g': Log, id: nat)
    requires YieldInv(l, g) && YieldOk(l, g', id)
    requires forall i: nat :: i != id ==> SameAt(g, g', i)
    ensures YieldInv(l, g')
  {
    forall i: nat ensures YieldOk(l, g', i) {
      assert YieldOk(l, g, i);
      if i != id { assert SameAt(g, g', i); }
    }
  }

  /** One more event of a stream that is being received. */
  lemma OneMoreItem(l: Link, g: Log, g': Log, id: nat, bs: seq<Body>, item: Item)
    requires id in l.issued && l.issued[id].Stream? && id in g.yielded && g.yielded[id] == Items(bs)
    requires Of(l.got, id) == bs + [Event(item)] && g'.yielded == g.yielded[id := g.yielded[id] + [item]]
    requires g'.ended == g.ended && g'.answers == g.answers && YieldOk(l, g, id)
    ensures YieldOk(l, g', id) && YieldedAll(l, g', id)
  {
    ItemsPut(bs, Event(item));
    assert !EndsDone(bs + [Event(item)]);
  }

  lemma StreamEventKeeps(s: Sys, id: nat, item: Item)
    requires ParentInv(s) && s.parent.Streaming? && s.parent.id == id && Received(s, id)
    requires s.link.results[0] == Msg(id, Event(item)) && !s.parent.draining
    ensures ParentInv(ReceiveStep(s))
  {
    var l, g, t := Popped(s.link), s.log, ReceiveStep(s);
    assert t.link == l && t.log.yielded == g.yielded[id := g.yielded[id] + [item]];
    assert YieldOk(l, g, id);
    OneMoreItem(l, g, t.log, id, Of(s.link.got, id), item);
    forall i: nat | i != id ensures SameAt(g, t.log, i) {}
    YieldsBut(l, g, t.log, id);
  }

  lemma AllEventsMore(bs: seq<Body>, b: Body)
    requires AllEvents(bs) && b.Event?
    ensures AllEvents(bs + [b])
  {
  }

  lemma StreamDrainKeeps(s: Sys, id: nat)
    requires ParentInv(s) && s.parent.Streaming? && s.parent.id == id && Received(s, id)
    requires s.link.results[0].id == id && s.link.results[0].body.Event? && s.parent.draining
    ensures ParentInv(ReceiveStep(s))
  {
    var l, g, p := Popped(s.link), s.log, s.parent;
    assert ReceiveStep(s) == s.(link := l);
    AllEventsMore(Of(s.link.got, id), s.link.results[0].body);
    assert PhaseInv(p, l, g);
  }

  lemma StreamClosingKeeps(s: Sys, id: nat)
    requires ParentInv(s) && s.parent.Streaming? && s.parent.id == id && Received(s, id)
    requires s.link.results[0].id == id && !s.link.results[0].body.Event?
    ensures ParentInv(ReceiveStep(s))
  {
    var l, g, t := Popped(s.link), s.log, ReceiveStep(s);
    ItemsPut(Of(s.link.got, id), s.link.results[0].body);
    assert YieldOk(l, g, id);
    forall i: nat | i != id ensures SameAt(g, t.log, i) {}
    YieldsBut(l, g, t.log, id);
  }

  lemma StreamReceiveKeeps(s: Sys)
    requires ParentInv(s) && s.parent.Streaming? && Received(s, s.parent.id)
    ensures ParentInv(ReceiveStep(s))
  {
    var m := s.link.results[0];
    if m.id == s.parent.id {
      if !m.body.Event? {
        StreamClosingKeeps(s, m.id);
      } else if s.parent.draining {
        StreamDrainKeeps(s, m.id);
      } else {
        StreamEventKeeps(s, m.id, m.body.item);
      }
    }
  }

  lemma TailReceiveKeeps(s: Sys)
    requires ParentInv(s) && s.parent.Tail? && Received(s, s.parent.id)
    ensures ParentInv(ReceiveStep(s))
  {
  }

  lemma AwaitReceiveKeeps(s: Sys)
    requires ParentInv(s) && s.parent.Awaiting? && Received(s, s.parent.id)
    ensures ParentInv(ReceiveStep(s))
  {
    var l, g, t, id := Popped(s.link), s.log, ReceiveStep(s), s.parent.id;
    if s.link.results[0].id == id {
      assert YieldOk(l, g, id);
      forall i: nat | i != id ensures SameAt(g, t.log, i) {}
      YieldsBut(l, g, t.log, id);
    }
  }

  lemma SendKeeps(s: Sys)
    requires ParentInv(s) && s.parent.Sending?
    requires s.link.nextId !in s.link.issued && Of(s.link.got, s.link.nextId) == []
    ensures ParentInv(SendStep(s))
  {
    var t := SendStep(s);
    forall i: nat ensures YieldOk(t.link, t.log, i) {
      assert YieldOk(s.link, s.log, i);
    }
  }

  lemma BeginCloseKeeps(s: Sys)
    requires ParentInv(s)
    requires s.link.nextId !in s.link.issued && Of(s.link.got, s.link.nextId) == []
    ensures ParentInv(Step(s, BeginClose))
  {
    var t := Step(s, BeginClose);
    forall i: nat ensures YieldOk(t.link, t.log, i) {
      assert YieldOk(s.link, s.log, i);
    }
  }

  lemma CloseReplyIsTheAnswer(s: Sys)
    requires ChildInv(s) && s.parent.Closing? && PhaseInv(s.parent, s.link, s.log)
    ensures var id := s.parent.id;
            Of(s.link.results, id) != [] ==> Of(s.link.queued, id) == [Of(s.link.results, id)[0]]
  {
    AnswersOf(s, s.parent.id);
  }

  lemma FinishCloseKeeps(s: Sys)
    requires ParentInv(s) && s.parent.Closing?
    requires var id := s.parent.id;
             Of(s.link.results, id) != [] ==> Of(s.link.queued, id) == [Of(s.link.results, id)[0]]
    ensures ParentInv(FinishCloseStep(s))
  {
    var t := FinishCloseStep(s);
    forall i: nat ensures YieldOk(t.link, t.log, i) {
      assert YieldOk(s.link, s.log, i);
    }
  }

  /** A step that neither sends nor receives: the parent stays in its phase, or gives it up. */
  ghost predicate IdleMove(s: Sys, t: Sys) {
    && t.link.got == s.link.got && t.link.queued == s.link.queued && t.link.issued == s.link.issued
    && t.log.yielded == s.log.yielded && t.log.answers == s.log.answers
    && (t.log.ended == s.log.ended || GivesUp(s, t))
    && (t.parent == s.parent || t.parent.Free? || t.parent.Starting? || t.parent.Sending? || t.parent.Unwinding?
        || (s.parent.Streaming? && t.parent == s.parent.(draining := true)))
  }

  ghost predicate GivesUp(s: Sys, t: Sys) {
    (s.parent.Streaming? || s.parent.Tail? || s.parent.Awaiting?) && s.parent.id in t.log.ended
    && t.log.ended == s.log.ended[s.parent.id := t.log.ended[s.parent.id]]
    && t.log.ended[s.parent.id] != ProtocolError
    && (t.log.ended[s.parent.id] == Completed ==> s.parent.Tail?)
  }

  lemma IdleMoves(s: Sys, a: Action)
    requires !IsChildAction(a) && !a.Receive? && !a.Send? && !a.BeginClose? && !a.FinishClose?
    ensures IdleMove(s, Step(s, a))
  {
  }

  lemma IdleMoveKeeps(s: Sys, t: Sys)
    requires ParentInv(s) && IdleMove(s, t)
    ensures ParentInv(t)
  {
    forall i: nat ensures YieldOk(t.link, t.log, i) {
      assert YieldOk(s.link, s.log, i);
    }
  }

  lemma ReceiveKeeps(s: Sys)
    requires ChildInv(s) && ParentInv(s) && s.link.results != []
    ensures ParentInv(ReceiveStep(s))
  {
    match s.parent
    case Streaming(id, _, _) => Receives(s, id); StreamReceiveKeeps(s);
    case Tail(id) => Receives(s, id); TailReceiveKeeps(s);
    case Awaiting(id) => Receives(s, id); AwaitReceiveKeeps(s);
    case _ =>
  }

  lemma ParentInvParentStep(s: Sys, a: Action)
    requires ChildInv(s) && ParentInv(s) && !IsChildAction(a)
    ensures ParentInv(Step(s, a))
  {
    match a
    case Receive => if s.link.results != [] { ReceiveKeeps(s); }
    case Send => if s.parent.Sending? { NextIdIsFresh(s); SendKeeps(s); }
    case BeginClose => NextIdIsFresh(s); BeginCloseKeeps(s);
    case FinishClose => if s.parent.Closing? { CloseReplyIsTheAnswer(s); FinishCloseKeeps(s); }
    case _ => IdleMoves(s, a); IdleMoveKeeps(s, Step(s, a));
  }

  lemma ChildLeavesParent(s: Sys, a: Action)
    requires IsChildAction(a)
    ensures var t := Step(s, a);
            && t.link.got == s.link.got && t.link.issued == s.link.issued
            && t.parent == s.parent && t.generation == s.generation
  {
  }

  lemma ChildLeavesLog(s: Sys, a: Action)
    requires IsChildAction(a)
    ensures var t := Step(s, a);
            && t.log.yielded == s.log.yielded && t.log.ended == s.log.ended && t.log.answers == s.log.answers
            && t.log.written == s.log.written
  {
  }

  /** What a child step leaves alone. */
  lemma ChildFrame(s: Sys, t: Sys, a: Action)
    requires IsChildAction(a) && t == Step(s, a)
    ensures t.link.got == s.link.got && t.link.issued == s.link.issued
    ensures t.log.yielded == s.log.yielded && t.log.ended == s.log.ended && t.log.answers == s.log.answers
    ensures t.parent == s.parent && t.generation == s.generation && t.log.written == s.log.written
  {
    ChildLeavesParent(s, a);
    ChildLeavesLog(s, a);
  }

  /** A child step adds at most one message, and that one answers the held command. */
  lemma ChildQueues(s: Sys, a: Action)
    requires IsChildAction(a)
    ensures var t := Step(s, a);
            t.link.queued == s.link.queued
            || (HeldBy(s.child).Holds? && |t.link.queued| == |s.link.queued| + 1
                && t.link.queued == s.link.queued + [Msg(HeldBy(s.child).cmd.id, t.link.queued[|s.link.queued|].body)])
  {
  }

  lemma ChildAnswers(s: Sys, a: Action, id: nat)
    requires IsChildAction(a) && (HeldBy(s.child) == Nothing || HeldBy(s.child).cmd.id != id)
    ensures Of(Step(s, a).link.queued, id) == Of(s.link.queued, id)
  {
    ChildQueues(s, a);
    var t := Step(s, a);
    if t.link.queued != s.link.queued {
      OfPut(s.link.queued, Msg(HeldBy(s.child).cmd.id, t.link.queued[|s.link.queued|].body));
    }
  }

  lemma ChildNotices(s: Sys, a: Action)
    requires IsChildAction(a)
    ensures var t := Step(s, a);
            && (t.flag == 0 || t.flag == s.flag)
            && (t.log.noticed == s.log.noticed
                || (HeldBy(s.child).Holds? && HeldBy(s.child).cmd == Stream(HeldBy(s.child).cmd.id, s.flag)
                    && t.log.noticed == s.log.noticed + {s.flag}))
  {
  }

  lemma ParentInvChildStep(s: Sys, a: Action)
    requires ChildInv(s) && ParentInv(s) && IsChildAction(a)
    ensures ParentInv(Step(s, a))
  {
    var t := Step(s, a);
    ChildFrame(s, Step(s, a), a);
    forall i: nat ensures YieldOk(t.link, t.log, i) {
      assert YieldOk(s.link, s.log, i);
      AnswersOf(s, i);
      if HeldBy(s.child) == Nothing || HeldBy(s.child).cmd.id != i { ChildAnswers(s, a, i); }
    }
  }

  // ---------- cancellation ----------

  /** Each generation up to `top` belongs to at most one stream. */
  ghost predicate GenerationsInv(issued: map<nat, Command>, top: nat) {
    && (forall id :: id in issued && issued[id].Stream? ==> 1 <= issued[id].gen <= top)
    && (forall i, j :: i in issued && j in issued && issued[i].Stream? && issued[j].Stream? && i != j ==>
          issued[i].gen != issued[j].gen)
  }

  /** The generation a stream is about to be sent with is newer than any sent before. */
  ghost predicate RequestInv(p: Parent, issued: map<nat, Command>, top: nat) {
    match p
    case Starting(StreamRequest(gen)) => 1 <= gen == top && GenerationsInv(issued, top - 1)
    case Sending(StreamRequest(gen)) => 1 <= gen == top && GenerationsInv(issued, top - 1)
    case Streaming(_, gen, _) => 1 <= gen <= top && GenerationsInv(issued, top)
    case Unwinding(gen) => 1 <= gen <= top && GenerationsInv(issued, top)
    case _ => GenerationsInv(issued, top)
  }

  /** The flag only ever holds a generation that a cancel was written for. */
  ghost predicate FlagInv(s: Sys) {
    && (s.flag == 0 || s.flag in s.log.written)
    && s.log.noticed <= s.log.written
    && (forall g :: g in s.log.written ==> 1 <= g <= s.generation)
  }

  ghost predicate CancelInv(s: Sys) {
    RequestInv(s.parent, s.link.issued, s.generation) && FlagInv(s)
  }

  lemma CancelInvChildStep(s: Sys, a: Action)
    requires ChildInv(s) && CancelInv(s) && IsChildAction(a)
    ensures CancelInv(Step(s, a))
  {
    ChildFrame(s, Step(s, a), a);
    ChildNotices(s, a);
    assert HeldBy(s.child).Holds? ==> InEpoch(s.link, HeldBy(s.child).cmd);
    assert GenerationsInv(s.link.issued, s.generation);
  }

  ghost predicate FlagMove(s: Sys, t: Sys) {
    && t.log.noticed == s.log.noticed && s.generation <= t.generation
    && (t.log.written == s.log.written || (1 <= t.flag <= s.generation && t.log.written == s.log.written + {t.flag}))
    && (t.flag == 0 || t.flag == s.flag || t.flag in t.log.written)
  }

  ghost predicate ParentGen(p: Parent, gen: nat) {
    (p.Streaming? && p.gen == gen) || (p.Unwinding? && p.gen == gen)
  }

  /** Everything but the parent's own bookkeeping is as before, except that one message was received. */
  lemma ReceiveFrame(s: Sys)
    requires s.link.results != []
    ensures ReceivedBy(s, ReceiveStep(s))
  {
    var m, t := s.link.results[0], s.(link := Popped(s.link));
    match s.parent
    case Streaming(id, _, draining) => assert ReceivedBy(s, StreamReceives(t, id, draining, m.body));
    case Tail(id) => assert ReceivedBy(s, TailReceives(t, id, m.body));
    case Awaiting(id) => assert ReceivedBy(s, AwaitReceives(t, id, m.body));
    case _ =>
  }

  ghost predicate ReceivedBy(s: Sys, t: Sys) {
    && t.flag == s.flag && t.generation == s.generation && t.child == s.child
    && t.link.queued == s.link.queued && t.link.issued == s.link.issued
    && t.log.written == s.log.written && t.log.noticed == s.log.noticed && t.log.produced == s.log.produced
  }

  lemma FlagMoves(s: Sys, a: Action)
    requires !IsChildAction(a)
    requires forall gen: nat :: ParentGen(s.parent, gen) ==> 1 <= gen <= s.generation
    ensures FlagMove(s, Step(s, a))
  {
    if a.Receive? {
      if s.link.results != [] { ReceiveFrame(s); }
    } else if a.SeeCancel? || a.Unwind? {
      if s.parent.Streaming? || s.parent.Unwinding? { assert ParentGen(s.parent, s.parent.gen); }
    }
  }

  lemma FlagMoveKeeps(s: Sys, t: Sys)
    requires FlagInv(s) && FlagMove(s, t)
    ensures FlagInv(t)
  {
  }

  lemma IssueGenerations(issued: map<nat, Command>, cmd: Command, top: nat)
    requires cmd.id !in issued
    requires if cmd.Stream? then 1 <= cmd.gen == top && GenerationsInv(issued, top - 1) else GenerationsInv(issued, top)
    ensures GenerationsInv(issued[cmd.id := cmd], top)
  {
  }

  lemma SendGenerations(s: Sys)
    requires s.parent.Sending? && RequestInv(s.parent, s.link.issued, s.generation) && s.link.nextId !in s.link.issued
    ensures RequestInv(SendStep(s).parent, SendStep(s).link.issued, s.generation)
    ensures SendStep(s).generation == s.generation
  {
    var id := s.link.nextId;
    match s.parent.req
    case CallRequest(op) => IssueGenerations(s.link.issued, Call(id, op), s.generation);
    case StreamRequest(gen) => IssueGenerations(s.link.issued, Stream(id, gen), s.generation);
  }

  /** A step that issues nothing moves the parent only where its generation stays good. */
  ghost predicate QuietMove(s: Sys, t: Sys) {
    && t.link.issued == s.link.issued
    && (|| t.generation == s.generation
        || (s.parent == Free && t.generation == s.generation + 1 && t.parent == Starting(StreamRequest(t.generation))))
    && match t.parent
       case Starting(req) => t.generation != s.generation || req.CallRequest? || s.parent == t.parent
       case Sending(req) => s.parent == t.parent || s.parent == Starting(req)
       case Streaming(_, gen, _) => s.parent.Streaming? && s.parent.gen == gen
       case Unwinding(gen) => ParentGen(s.parent, gen)
       case _ => !s.parent.Starting? && (s.parent.Sending? ==> t.parent == Free && !s.link.open)
  }

  lemma QuietMoves(s: Sys, a: Action)
    requires !IsChildAction(a) && !(a.Send? && s.link.open) && !a.BeginClose?
    ensures QuietMove(s, Step(s, a))
  {
  }

  lemma QuietMoveKeeps(s: Sys, t: Sys)
    requires RequestInv(s.parent, s.link.issued, s.generation) && QuietMove(s, t)
    ensures RequestInv(t.parent, t.link.issued, t.generation)
  {
  }

  lemma RequestInvParentStep(s: Sys, a: Action)
    requires RequestInv(s.parent, s.link.issued, s.generation) && !IsChildAction(a) && s.link.nextId !in s.link.issued
    ensures RequestInv(Step(s, a).parent, Step(s, a).link.issued, Step(s, a).generation)
  {
    if a.Send? {
      if s.parent.Sending? { SendGenerations(s); }
    } else if a.BeginClose? {
      if s.parent == Free { IssueGenerations(s.link.issued, Shutdown(s.link.nextId), s.generation); }
    } else {
      QuietMoves(s, a);
      QuietMoveKeeps(s, Step(s, a));
    }
  }

  lemma CancelInvParentStep(s: Sys, a: Action)
    requires CancelInv(s) && !IsChildAction(a) && s.link.nextId !in s.link.issued
    ensures CancelInv(Step(s, a))
  {
    FlagMoves(s, a);
    FlagMoveKeeps(s, Step(s, a));
    RequestInvParentStep(s, a);
  }

  // ---------- what a stream's answer contains ----------

  lemma ProducedMore(items: seq<Item>, item: Item)
    ensures HasTerminal(items + [item]) == (HasTerminal(items) || IsTerminal(item))
    ensures CountAudio(items + [item]) == CountAudio(items) + AudioWeight(item)
  {
    var more := items + [item];
    assert more[..|items|] == items;
    if HasTerminal(items) {
      var i :| 0 <= i < |items| && IsTerminal(items[i]);
      assert IsTerminal(more[i]);
    }
    assert more[|items|] == item;
  }

  /** The events of a stream answered with a done: everything produced, repaired; after a cancel perhaps without the
      last item produced and without the repair. */
  ghost predicate DoneItems(g: Log, gen: nat, items: seq<Item>, produced: seq<Item>) {
    || items == Repaired(produced)
    || (gen in g.noticed && (items == produced || (produced != [] && items == produced[..|produced| - 1])))
  }

  ghost predicate Counted(w: Work, produced: seq<Item>) {
    w.sawTerminal == HasTerminal(produced) && w.audio == CountAudio(produced)
  }

  /** How the events queued so far for the held stream relate to what its engine has produced. */
  ghost predicate WorkAt(c: Child, items: seq<Item>, g: Log) {
    match c
    case Taken(cmd) => items == []
    case Iterating(w) => items == Known(g.produced, w.id) && Counted(w, items)
    case Emitting(w, item) => Known(g.produced, w.id) == items + [item] && Counted(w, items + [item])
    case Leaving(w, cut) =>
      var p := Known(g.produced, w.id);
      if cut then w.gen in g.noticed && p != [] && items == p[..|p| - 1] else items == p && Counted(w, items)
    case RepairError(w) => items == Known(g.produced, w.id) && Counted(w, items) && !w.sawTerminal
    case RepairDone(w) =>
      var p := Known(g.produced, w.id);
      items == p + [Dict(SegmentErrorKind, 0)] && Counted(w, p) && !w.sawTerminal
    case Finishing(w) => DoneItems(g, w.gen, items, Known(g.produced, w.id))
    case _ => true
  }

  ghost predicate WorkInv(s: Sys) {
    HeldBy(s.child).Holds? ==> WorkAt(s.child, Items(Of(s.link.queued, HeldBy(s.child).cmd.id)), s.log)
  }

  ghost predicate DoneOk(s: Sys, id: nat) {
    var bs := Of(s.link.queued, id);
    id in s.link.issued && s.link.issued[id].Stream? && EndsDone(bs) ==>
      DoneItems(s.log, s.link.issued[id].gen, Items(bs), Known(s.log.produced, id))
  }

  ghost predicate StreamInv(s: Sys) {
    WorkInv(s) && forall id: nat :: DoneOk(s, id)
  }

  lemma QueueEvent(s: Sys, id: nat, item: Item, next: Child)
    ensures Items(Of(Queue(s, id, Event(item), next).link.queued, id)) == Items(Of(s.link.queued, id)) + [item]
  {
    OfPut(s.link.queued, Msg(id, Event(item)));
    ItemsPut(Of(s.link.queued, id), Event(item));
  }

  lemma QueueDone(s: Sys, id: nat, next: Child)
    ensures Of(Queue(s, id, Done, next).link.queued, id) == Of(s.link.queued, id) + [Done]
    ensures Items(Of(Queue(s, id, Done, next).link.queued, id)) == Items(Of(s.link.queued, id))
  {
    OfPut(s.link.queued, Msg(id, Done));
    ItemsPut(Of(s.link.queued, id), Done);
  }

  lemma ProduceKeeps(s: Sys, w: Work, item: Item, items: seq<Item>)
    requires WorkAt(s.child, items, s.log) && s.child == Iterating(w)
    ensures WorkAt(ProduceStep(s, w, item).child, items, ProduceStep(s, w, item).log)
  {
    ProducedMore(items, item);
    assert (items + [item])[..|items|] == items;
  }

  lemma PutItemAt(w: Work, item: Item, items: seq<Item>, g: Log)
    requires WorkAt(Emitting(w, item), items, g)
    ensures WorkAt(Iterating(w), items + [item], g)
  {
  }

  lemma RepairAt(w: Work, items: seq<Item>, g: Log)
    ensures WorkAt(RepairError(w), items, g) ==> WorkAt(RepairDone(w), items + [Dict(SegmentErrorKind, 0)], g)
    ensures WorkAt(RepairDone(w), items, g) ==> WorkAt(Finishing(w), items + [Dict(DoneKind, w.audio)], g)
  {
    var p := Known(g.produced, w.id);
    var error, done := Dict(SegmentErrorKind, 0), Dict(DoneKind, w.audio);
    assert p + [error] + [done] == p + [error, done];
  }

  /** Queueing an event moves the held stream from one phase to the next with one more item. */
  lemma QueueKeeps(s: Sys, w: Work, item: Item, next: Child, items: seq<Item>)
    requires items == Items(Of(s.link.queued, w.id)) && WorkAt(next, items + [item], s.log)
    requires HeldBy(next) == Holds(Stream(w.id, w.gen))
    ensures WorkInv(Queue(s, w.id, Event(item), next))
  {
    QueueEvent(s, w.id, item, next);
  }

  lemma PutItemKeeps(s: Sys)
    requires WorkInv(s) && s.child.Emitting?
    ensures WorkInv(Step(s, PutItem))
  {
    var w, items := s.child.w, Items(Of(s.link.queued, s.child.w.id));
    PutItemAt(w, s.child.item, items, s.log);
    QueueKeeps(s, w, s.child.item, Iterating(w), items);
  }

  lemma RepairKeeps(s: Sys)
    requires WorkInv(s) && (s.child.RepairError? || s.child.RepairDone?)
    ensures WorkInv(Step(s, Repair))
  {
    var w, items := s.child.w, Items(Of(s.link.queued, s.child.w.id));
    RepairAt(w, items, s.log);
    if s.child.RepairError? {
      QueueKeeps(s, w, Dict(SegmentErrorKind, 0), RepairDone(w), items);
    } else {
      QueueKeeps(s, w, Dict(DoneKind, w.audio), Finishing(w), items);
    }
  }

  lemma TakeKeeps(s: Sys)
    requires ChildInv(s) && WorkInv(s)
    ensures WorkInv(Step(s, Take))
  {
    if s.link.commands != [] {
      AnswersOf(s, s.link.commands[0].id);
      assert Pending(s.link, s.link.commands[0].id);
    }
  }

  lemma LeaveKeeps(s: Sys, a: Action)
    requires WorkInv(s) && (a.Exhaust? || a.IteratorClosed? || a.EngineReady? || a.Poll?)
    ensures WorkInv(Step(s, a))
  {
  }

  lemma WorkInvChildStep(s: Sys, a: Action)
    requires ChildInv(s) && WorkInv(s) && IsChildAction(a)
    ensures WorkInv(Step(s, a))
  {
    match a
    case Produce(item) =>
      if s.child.Iterating? { ProduceKeeps(s, s.child.w, item, Items(Of(s.link.queued, s.child.w.id))); }
    case PutItem => if s.child.Emitting? { PutItemKeeps(s); }
    case Repair => if s.child.RepairError? || s.child.RepairDone? { RepairKeeps(s); }
    case Take => TakeKeeps(s);
    case Exhaust => LeaveKeeps(s, a);
    case IteratorClosed => LeaveKeeps(s, a);
    case EngineReady => LeaveKeeps(s, a);
    case Poll => LeaveKeeps(s, a);
    case _ =>
  }

  lemma ChildProduces(s: Sys, a: Action, id: nat)
    requires IsChildAction(a) && (HeldBy(s.child) == Nothing || HeldBy(s.child).cmd.id != id)
    ensures Known(Step(s, a).log.produced, id) == Known(s.log.produced, id)
    ensures s.log.noticed <= Step(s, a).log.noticed
  {
  }

  /** A message is a done only when the child finishes a stream. */
  lemma ChildFinishes(s: Sys, a: Action)
    requires IsChildAction(a) && HeldBy(s.child).Holds?
    ensures var t := Step(s, a);
            || t.link.queued == s.link.queued
            || (a.Finish? && s.child.Finishing?)
            || (|t.link.queued| > |s.link.queued| && !t.link.queued[|s.link.queued|].body.Done?)
  {
  }

  lemma DoneOkHeld(s: Sys, t: Sys, a: Action, id: nat)
    requires WorkInv(s) && DoneOk(s, id) && IsChildAction(a) && t == Step(s, a)
    requires HeldBy(s.child).Holds? && HeldBy(s.child).cmd.id == id && InEpoch(s.link, HeldBy(s.child).cmd)
    requires AllEvents(Of(s.link.queued, id))
    ensures DoneOk(t, id)
  {
    if a.Finish? && s.child.Finishing? {
      DoneOkFinish(s, s.child.w);
    } else {
      NotDoneYet(s, t, a, id);
    }
  }

  lemma DoneOkFinish(s: Sys, w: Work)
    requires WorkInv(s) && s.child == Finishing(w) && InEpoch(s.link, Stream(w.id, w.gen))
    ensures DoneOk(Queue(s, w.id, Done, Clearing(w.gen)), w.id)
  {
    var items, t := Items(Of(s.link.queued, w.id)), Queue(s, w.id, Done, Clearing(w.gen));
    assert WorkAt(Finishing(w), items, s.log);
    assert DoneItems(s.log, w.gen, items, Known(s.log.produced, w.id));
    QueueDone(s, w.id, Clearing(w.gen));
    assert t.log == s.log && t.link.issued == s.link.issued;
  }

  lemma NotDoneYet(s: Sys, t: Sys, a: Action, id: nat)
    requires IsChildAction(a) && t == Step(s, a) && HeldBy(s.child).Holds? && !(a.Finish? && s.child.Finishing?)
    requires AllEvents(Of(s.link.queued, id))
    ensures !EndsDone(Of(t.link.queued, id))
  {
    if t.link.queued != s.link.queued {
      ChildQueues(s, a);
      ChildFinishes(s, a);
      OfPut(s.link.queued, t.link.queued[|s.link.queued|]);
    }
  }

  lemma DoneOkChildStep(s: Sys, a: Action, id: nat)
    requires ChildInv(s) && WorkInv(s) && DoneOk(s, id) && IsChildAction(a)
    ensures DoneOk(Step(s, a), id)
  {
    if HeldBy(s.child).Holds? && HeldBy(s.child).cmd.id == id {
      AnswersOf(s, id);
      DoneOkHeld(s, Step(s, a), a, id);
    } else {
      ChildFrame(s, Step(s, a), a);
      ChildAnswers(s, a, id);
      ChildProduces(s, a, id);
    }
  }

  ghost predicate SameBelow(issued: map<nat, Command>, issued': map<nat, Command>, next: nat) {
    forall id :: id != next ==> (id in issued <==> id in issued') && (id in issued ==> issued[id] == issued'[id])
  }

  lemma ParentIssues(s: Sys, a: Action)
    requires !IsChildAction(a)
    ensures SameBelow(s.link.issued, Step(s, a).link.issued, s.link.nextId)
  {
    if a.Receive? && s.link.results != [] { ReceiveFrame(s); }
  }

  lemma ParentLeavesStreams(s: Sys, a: Action)
    requires !IsChildAction(a)
    ensures var t := Step(s, a);
            && t.log.noticed == s.log.noticed && t.log.produced == s.log.produced && t.link.queued == s.link.queued
            && (t.child == s.child || t.child == Dead || t.child == Idle)
  {
    if a.Receive? && s.link.results != [] { ReceiveFrame(s); }
  }

  lemma StreamInvParentStep(s: Sys, a: Action)
    requires StreamInv(s) && !IsChildAction(a) && Of(s.link.queued, s.link.nextId) == []
    ensures StreamInv(Step(s, a))
  {
    ParentLeavesStreams(s, a);
    ParentIssues(s, a);
    var t := Step(s, a);
    forall id: nat ensures DoneOk(t, id) {
      assert DoneOk(s, id);
    }
  }

  // ---------- every interleaving ----------

  ghost predicate Inv(s: Sys) {
    ChildInv(s) && ParentInv(s) && CancelInv(s) && StreamInv(s)
  }

  lemma InitialInv()
    ensures Inv(Initial)
  {
  }

  lemma StepKeepsInv(s: Sys, a: Action)
    requires Inv(s)
    ensures Inv(Step(s, a))
  {
    ChildInvStep(s, a);
    NextIdIsFresh(s);
    if IsChildAction(a) {
      ParentInvChildStep(s, a);
      CancelInvChildStep(s, a);
      WorkInvChildStep(s, a);
      forall id: nat ensures DoneOk(Step(s, a), id) { DoneOkChildStep(s, a, id); }
    } else {
      ParentInvParentStep(s, a);
      CancelInvParentStep(s, a);
      StreamInvParentStep(s, a);
    }
  }

  lemma {:induction false} RunKeepsInv(actions: seq<Action>)
    ensures Inv(Run(actions))
  {
    if actions == [] {
      InitialInv();
    } else {
      RunKeepsInv(actions[..|actions| - 1]);
      StepKeepsInv(Run(actions[..|actions| - 1]), actions[|actions| - 1]);
    }
  }

  /** What the invariant says about one id. */
  lemma At(s: Sys, id: nat)
    requires Inv(s)
    ensures AnswerAt(s.link, HeldBy(s.child), s.child != Dead, id) && Flows(s.link, id)
    ensures YieldOk(s.link, s.log, id) && DoneOk(s, id)
  {
    AnswersOf(s, id);
  }

  /** What was received for an id is the beginning of what was queued for it. */
  lemma ReceivedIsPrefix(s: Sys, id: nat)
    requires Inv(s)
    ensures Of(s.link.got, id) <= Of(s.link.queued, id)
  {
    At(s, id);
  }

  /** What one `stream()` call yields is an in-order prefix of the events the child queued for that very request;
      nothing left over from another request is among it. */
  lemma YieldsAreAPrefixOfTheOwnEvents(actions: seq<Action>, id: nat)
    requires id in Run(actions).log.yielded
    ensures Run(actions).log.yielded[id] <= Items(Of(Run(actions).link.queued, id))
  {
    var s := Run(actions);
    RunKeepsInv(actions);
    At(s, id);
    ReceivedIsPrefix(s, id);
    ItemsPrefix(Of(s.link.got, id), Of(s.link.queued, id));
  }

  /** Nothing follows the closing message of an answer. */
  lemma ClosedPrefixIsWhole(cmd: Command, bs: seq<Body>, cs: seq<Body>)
    requires bs <= cs && Closed(bs) && SuitsCommand(cmd, cs)
    ensures bs == cs
  {
    var front, rest := bs[..|bs| - 1], cs[|bs|..];
    assert front + [bs[|bs| - 1]] + rest == cs;
    NextOfAnswer(cmd, front, bs[|bs| - 1], rest);
  }

  /** A `stream()` call that ends normally and was not cancelled has yielded every event of its request, and the
      child has nothing more to say about it. */
  lemma CompletedStreamYieldsEverything(actions: seq<Action>, id: nat)
    requires id in Run(actions).log.ended && Run(actions).log.ended[id] == Completed
    ensures var s := Run(actions);
            && id in s.log.yielded
            && s.log.yielded[id] == Items(Of(s.link.queued, id))
            && EndsDone(Of(s.link.queued, id))
  {
    var s := Run(actions);
    RunKeepsInv(actions);
    At(s, id);
    ReceivedIsPrefix(s, id);
    ClosedPrefixIsWhole(s.link.issued[id], Of(s.link.got, id), Of(s.link.queued, id));
  }

  /** Unless a cancel was written for its own generation, a stream answered with a done has every item its engine
      produced, followed by an error and a done of the right count when the engine gave no terminal event. */
  lemma StreamIsCutOnlyByItsOwnCancel(actions: seq<Action>, id: nat, gen: nat)
    requires var s := Run(actions);
             && id in s.link.issued && s.link.issued[id] == Stream(id, gen)
             && gen !in s.log.written && EndsDone(Of(s.link.queued, id))
    ensures var s := Run(actions);
            Items(Of(s.link.queued, id)) == Repaired(Known(s.log.produced, id))
  {
    RunKeepsInv(actions);
    At(Run(actions), id);
  }

  /** A cancelled stream loses at most the one item the child was holding when it read the flag. */
  lemma CancelLosesAtMostOneItem(actions: seq<Action>, id: nat)
    requires var s := Run(actions);
             id in s.link.issued && s.link.issued[id].Stream? && EndsDone(Of(s.link.queued, id))
    ensures var s := Run(actions);
            var items, produced := Items(Of(s.link.queued, id)), Known(s.log.produced, id);
            items == Repaired(produced) || items == produced || (produced != [] && items == produced[..|produced| - 1])
  {
    RunKeepsInv(actions);
    At(Run(actions), id);
  }

  /** No two streams share a generation, so a cancel written for one of them is never a cancel for the other. */
  lemma GenerationsAreNotShared(actions: seq<Action>, i: nat, j: nat)
    requires var s := Run(actions);
             i in s.link.issued && j in s.link.issued && s.link.issued[i].Stream? && s.link.issued[j].Stream? && i != j
    ensures Run(actions).link.issued[i].gen != Run(actions).link.issued[j].gen
  {
    RunKeepsInv(actions);
    assert GenerationsInv(Run(actions).link.issued, Run(actions).generation);
  }

  /** What an uncancelled stream gives its caller from end to end: the engine's items, repaired, with a terminal
      event. */
  lemma UncancelledStreamEndToEnd(actions: seq<Action>, id: nat)
    requires var s := Run(actions);
             && id in s.log.ended && s.log.ended[id] == Completed
             && id in s.link.issued && s.link.issued[id].Stream? && s.link.issued[id].gen !in s.log.written
    ensures var s := Run(actions);
            && id in s.log.yielded
            && s.log.yielded[id] == Repaired(Known(s.log.produced, id))
            && HasTerminal(s.log.yielded[id])
  {
    var s := Run(actions);
    CompletedStreamYieldsEverything(actions, id);
    RunKeepsInv(actions);
    StreamIsCutOnlyByItsOwnCancel(actions, id, s.link.issued[id].gen);
    var p := Known(s.log.produced, id);
    if !HasTerminal(p) {
      assert IsTerminal(Repaired(p)[|p|]);
    }
  }

  /** Every command is answered with at most one closing message, and it is the last message with its id. */
  lemma AtMostOneClosing(actions: seq<Action>, id: nat, i: nat)
    requires i < |Of(Run(actions).link.queued, id)| && !Of(Run(actions).link.queued, id)[i].Event?
    ensures i == |Of(Run(actions).link.queued, id)| - 1
  {
    RunKeepsInv(actions);
    At(Run(actions), id);
    var bs := Of(Run(actions).link.queued, id);
    assert id in Run(actions).link.issued;
    assert forall k :: 0 <= k < |bs| - 1 ==> bs[..|bs| - 1][k] == bs[k];
  }

  /** A living child that is not answering a command, and no longer finds it in the queue, has closed its answer. */
  lemma EveryTakenCommandIsClosed(actions: seq<Action>, id: nat)
    requires var s := Run(actions);
             && s.child != Dead && id in s.link.issued && id >= s.link.epochStart
             && (HeldBy(s.child) == Nothing || HeldBy(s.child).cmd.id != id)
             && forall i :: 0 <= i < |s.link.commands| ==> s.link.commands[i].id != id
    ensures Closed(Of(Run(actions).link.queued, id))
  {
    RunKeepsInv(actions);
    var s := Run(actions);
    At(s, id);
  }

  /** A call, or a shutdown, is given exactly the one message that the child queued for it: a result or an error. */
  lemma CallsGetTheirOwnAnswer(actions: seq<Action>, id: nat)
    requires id in Run(actions).log.answers
    ensures var s := Run(actions);
            var answer := s.log.answers[id];
            Of(s.link.queued, id) == [answer] && (answer.Result? || answer.Error?)
  {
    RunKeepsInv(actions);
    At(Run(actions), id);
  }

  /** No stream ever ends because of a message of an unexpected kind. */
  lemma NoProtocolError(actions: seq<Action>, id: nat)
    requires id in Run(actions).log.ended
    ensures Run(actions).log.ended[id] != ProtocolError
  {
    RunKeepsInv(actions);
    At(Run(actions), id);
  }
}

/** Two ways in which a cancellation can get lost, and exactly when it does not. The child clears the shared cell in two
    steps, reading and then writing, and the next cancellation may be written in between. And a stream raises the
    generation before it makes sure that there is a worker: if it has to start one, that empties the cell, with any
    cancellation that was written meanwhile. */
module WorkerProtocolRace {
  import opened WorkerProtocol

  lemma RunThen(actions: seq<Action>, a: Action)
    ensures Run(actions + [a]) == Step(Run(actions), a)
  {
    assert (actions + [a])[..|actions|] == actions;
  }

  lemma FirstStreamSent() returns (actions: seq<Action>)
    ensures var s := Run(actions);
            s.parent == Streaming(0, 1, false) && s.generation == 1 && s.child == Idle && s.flag == 0
            && s.link.open && s.link.commands == [Stream(0, 1)] && s.link.results == [] && s.link.nextId == 1
  {
    RunThen([], BeginStream);
    var a := [BeginStream];
    assert a == [] + [BeginStream];
    RunThen(a, Start);
    RunThen(a + [Start], Send);
    actions := a + [Start] + [Send];
  }

  lemma FirstStreamCancelled() returns (actions: seq<Action>)
    ensures var s := Run(actions);
            s.parent == Streaming(0, 1, true) && s.generation == 1 && s.flag == 1
            && s.child == Iterating(Work(0, 1, false, 0))
            && s.link.open && s.link.commands == [] && s.link.results == [] && s.link.nextId == 1
  {
    var a := FirstStreamSent();
    RunThen(a, Take);
    RunThen(a + [Take], EngineReady);
    RunThen(a + [Take] + [EngineReady], SeeCancel);
    actions := a + [Take] + [EngineReady] + [SeeCancel];
  }

  lemma FirstStreamDone() returns (actions: seq<Action>)
    ensures var s := Run(actions);
            s.parent == Streaming(0, 1, true) && s.generation == 1 && s.child == Clearing(1) && s.flag == 1
            && s.link.open && s.link.commands == [] && s.link.results == [Msg(0, Done)] && s.link.nextId == 1
  {
    var a := FirstStreamCancelled();
    RunThen(a, Exhaust);
    RunThen(a + [Exhaust], IteratorClosed);
    RunThen(a + [Exhaust] + [IteratorClosed], Finish);
    actions := a + [Exhaust] + [IteratorClosed] + [Finish];
  }

  /** The child has read the cell and is about to clear it; the parent has moved on to a second stream. */
  lemma SecondStreamStarting() returns (actions: seq<Action>)
    ensures var s := Run(actions);
            s.parent == Starting(StreamRequest(2)) && s.generation == 2 && s.child == Erasing(1) && s.flag == 1
            && s.link.open && s.link.commands == [] && s.link.nextId == 1
  {
    var a := FirstStreamDone();
    RunThen(a, ReadFlag);
    RunThen(a + [ReadFlag], Receive);
    RunThen(a + [ReadFlag] + [Receive], BeginStream);
    actions := a + [ReadFlag] + [Receive] + [BeginStream];
  }

  lemma SecondStreamSent() returns (actions: seq<Action>)
    ensures var s := Run(actions);
            s.parent == Streaming(1, 2, false) && s.generation == 2 && s.child == Erasing(1) && s.flag == 1
            && s.link.commands == [Stream(1, 2)]
  {
    var a := SecondStreamStarting();
    RunThen(a, Start);
    RunThen(a + [Start], Send);
    actions := a + [Start] + [Send];
  }

  /** Another thread has asked for the second stream to be cancelled, which writes its generation, once. */
  lemma SecondStreamCancelled() returns (actions: seq<Action>)
    ensures var s := Run(actions);
            s.parent == Streaming(1, 2, false) && s.child == Erasing(1) && s.flag == 2
            && s.link.commands == [Stream(1, 2)] && 2 in s.log.written
  {
    var a := SecondStreamSent();
    RunThen(a, SoftCancel(2));
    actions := a + [SoftCancel(2)];
  }

  /** The cancellation of the second stream was written, and yet the cell is empty while its command still waits: the
      child has wiped out a cancellation that was not its own and will run the stream in full. A cancel check that the
      stream itself polls writes the cell again and again; a soft cancel from outside writes it once. */
  lemma ACancelCanBeErased() returns (actions: seq<Action>)
    ensures var s := Run(actions);
            s.parent == Streaming(1, 2, false) && s.child == Idle && s.link.commands == [Stream(1, 2)]
            && 2 in s.log.written && s.flag == 0
  {
    var a := SecondStreamCancelled();
    RunThen(a, Erase);
    actions := a + [Erase];
  }

  lemma FirstStreamCancelledEarly() returns (actions: seq<Action>)
    ensures actions == [BeginStream, SoftCancel(1)]
    ensures var s := Run(actions);
            s.parent == Starting(StreamRequest(1)) && s.child == Dead && s.flag == 1 && s.log.written == {1}
            && !s.link.open && s.link.nextId == 0
  {
    RunThen([], BeginStream);
    var a := [BeginStream];
    assert a == [] + [BeginStream];
    RunThen(a, SoftCancel(1));
    actions := a + [SoftCancel(1)];
  }

  /** The stream's own start wipes out its cancellation: that was written behind the raising of the generation and
      before the new worker, and yet the cell is empty when the command is in the queue. */
  lemma ACancelCanBeStartedOver() returns (actions: seq<Action>)
    ensures actions == [BeginStream, SoftCancel(1), Start, Send]
    ensures var s := Run(actions);
            s.parent == Streaming(0, 1, false) && s.child == Idle && s.link.commands == [Stream(0, 1)]
            && 1 in s.log.written && s.flag == 0
  {
    var a := FirstStreamCancelledEarly();
    RunThen(a, Start);
    RunThen(a + [Start], Send);
    actions := a + [Start] + [Send];
  }

  /** The steps that change a written generation: the child clearing, the worker being replaced or killed, and the
      writing of another cancellation. */
  lemma OnlyErasingLosesACancel(s: Sys, a: Action)
    requires s.flag != 0 && Step(s, a).flag != s.flag
    ensures || (a.Erase? && s.child.Erasing?)
            || (a.Start? && s.parent.Starting? && !(s.link.open && s.child != Dead))
            || a.Kill? || a.TimeOut? || a.FinishClose?
            || a.SeeCancel? || a.Unwind? || a.SoftCancel?
  {
  }

  // ---------- exactly when a cancellation lasts ----------

  function From(s: Sys, actions: seq<Action>): Sys
    decreases |actions|
  {
    if actions == [] then s else From(Step(s, actions[0]), actions[1..])
  }

  /** The child clears the cell after a stream of this very generation. */
  predicate ClearsOwn(s: Sys, a: Action, gen: nat) {
    a.Erase? && s.child == Erasing(gen)
  }

  /** The child has read the cell for another stream and is about to clear it. */
  predicate AboutToEraseAnother(c: Child, gen: nat) {
    c.Erasing? && c.gen != gen
  }

  /** The request in hand is the stream of this generation. */
  predicate Own(p: Parent, gen: nat) {
    || ((p.Starting? || p.Sending?) && p.req == StreamRequest(gen))
    || (p.Streaming? && p.gen == gen)
  }

  /** The step kills the worker or writes a cancellation for another stream. */
  predicate Disturbs(a: Action, gen: nat) {
    a.Kill? || a.TimeOut? || (a.SoftCancel? && a.gen != gen)
  }

  predicate Undisturbed(actions: seq<Action>, gen: nat) {
    forall k :: 0 <= k < |actions| ==> !Disturbs(actions[k], gen)
  }

  /** The cell holds the generation until the stream is over, or until the child clears it after that very stream. */
  predicate Kept(s: Sys, actions: seq<Action>, gen: nat)
    decreases |actions|
  {
    s.flag == gen
    && (|| actions == [] || !Own(s.parent, gen) || ClearsOwn(s, actions[0], gen)
        || Kept(Step(s, actions[0]), actions[1..], gen))
  }

  /** Whatever follows, the cancellation stays as long as its stream lasts. */
  ghost predicate Lasts(s: Sys, gen: nat) {
    forall actions :: Undisturbed(actions, gen) ==> Kept(s, actions, gen)
  }

  /** The stream has its worker, and the child is not about to clear the cell for another one. */
  predicate Safe(s: Sys, gen: nat) {
    !s.parent.Starting? && !AboutToEraseAnother(s.child, gen)
  }

  lemma OneStepOfItsStream(s: Sys, a: Action, gen: nat)
    requires gen > 0 && s.flag == gen && Own(s.parent, gen) && Safe(s, gen)
    requires !Disturbs(a, gen) && !ClearsOwn(s, a, gen)
    ensures var t := Step(s, a); t.flag == gen && (Own(t.parent, gen) ==> Safe(t, gen))
  {
    if IsChildAction(a) {
      assert a.ReadFlag? && s.child.Clearing? && s.child.gen != gen ==> Step(s, a).child == Idle;
    }
  }

  lemma {:induction false} KeptFromThere(s: Sys, actions: seq<Action>, gen: nat)
    requires gen > 0 && s.flag == gen && (Own(s.parent, gen) ==> Safe(s, gen)) && Undisturbed(actions, gen)
    ensures Kept(s, actions, gen)
    decreases |actions|
  {
    if actions != [] && Own(s.parent, gen) && !ClearsOwn(s, actions[0], gen) {
      OneStepOfItsStream(s, actions[0], gen);
      KeptFromThere(Step(s, actions[0]), actions[1..], gen);
    }
  }

  lemma StartingLoses(s: Sys, gen: nat)
    requires gen > 0 && s.flag == gen && Own(s.parent, gen) && s.parent.Starting?
    ensures Undisturbed([Crash, Start], gen) && !Kept(s, [Crash, Start], gen)
  {
    var t := Step(s, Crash);
    var u := Step(t, Start);
    assert [Crash, Start][1..] == [Start] && [Start][1..] == [];
    assert u.flag == 0 && !Kept(u, [], gen);
    assert Own(t.parent, gen) && !Kept(t, [Start], gen);
  }

  lemma ErasingLoses(s: Sys, gen: nat)
    requires gen > 0 && s.flag == gen && Own(s.parent, gen) && AboutToEraseAnother(s.child, gen)
    ensures Undisturbed([Erase], gen) && !Kept(s, [Erase], gen)
  {
    assert [Erase][1..] == [] && Step(s, Erase).flag == 0 && !Kept(Step(s, Erase), [], gen);
  }

  /** The cancellation of the stream in hand lasts, through everything but a kill and a cancellation for another stream,
      if and only if the stream has its worker already and the child is not just then about to clear the cell for
      another stream; that it may come to clear the cell later does no harm. */
  lemma CancelLastsExactlyWhen(s: Sys, gen: nat)
    requires gen > 0 && s.flag == gen && Own(s.parent, gen)
    ensures Lasts(s, gen) <==> Safe(s, gen)
  {
    if s.parent.Starting? {
      StartingLoses(s, gen);
    } else if AboutToEraseAnother(s.child, gen) {
      ErasingLoses(s, gen);
    } else {
      forall actions | Undisturbed(actions, gen) ensures Kept(s, actions, gen) {
        KeptFromThere(s, actions, gen);
      }
    }
  }

  /** The same, seen from the writing: after any run, a soft cancel for the stream in hand lasts if and only if it is
      written neither before the stream has its worker nor while the child is about to clear the cell for another. */
  lemma SoftCancelLastsExactlyWhen(actions: seq<Action>, gen: nat)
    requires 1 <= gen <= Run(actions).generation && Own(Run(actions).parent, gen)
    ensures Lasts(Run(actions + [SoftCancel(gen)]), gen) <==> Safe(Run(actions), gen)
  {
    RunThen(actions, SoftCancel(gen));
    CancelLastsExactlyWhen(Run(actions + [SoftCancel(gen)]), gen);
  }

  // ---------- what a cancellation that is still there does ----------

  /** The step writes no other cancellation and neither replaces nor kills the worker. */
  predicate LeavesTheCell(s: Sys, a: Action) {
    && !(a.SoftCancel? || a.SeeCancel? || a.Unwind? || a.Kill? || a.TimeOut? || a.FinishClose?)
    && !(a.Start? && s.parent.Starting? && !(s.link.open && s.child != Dead))
  }

  /** So does every step of a continuation. */
  predicate LeftAlone(s: Sys, actions: seq<Action>)
    decreases |actions|
  {
    actions == [] || (LeavesTheCell(s, actions[0]) && LeftAlone(Step(s, actions[0]), actions[1..]))
  }

  /** As long as the cell is left alone, the child comes to clear it only for the generation it holds. */
  lemma OneStepKeeps(s: Sys, a: Action, gen: nat)
    requires gen > 0 && s.flag == gen && !AboutToEraseAnother(s.child, gen)
    requires LeavesTheCell(s, a) && !ClearsOwn(s, a, gen)
    ensures var t := Step(s, a); t.flag == gen && !AboutToEraseAnother(t.child, gen)
  {
    if Step(s, a).flag != gen { OnlyErasingLosesACancel(s, a); }
    if IsChildAction(a) {
      assert a.ReadFlag? && s.child.Clearing? && s.child.gen != gen ==> Step(s, a).child == Idle;
    }
  }

  /** A cancellation that is still in the cell when its own stream yields an item cuts that stream. */
  lemma KeptCancelCutsItsStream(s: Sys, actions: seq<Action>, gen: nat, item: Item)
    requires gen > 0 && s.flag == gen && !AboutToEraseAnother(s.child, gen) && LeftAlone(s, actions)
    requires forall k: nat :: k < |actions| ==> !ClearsOwn(From(s, actions[..k]), actions[k], gen)
    requires From(s, actions).child.Iterating? && From(s, actions).child.w.gen == gen
    ensures Step(From(s, actions), Produce(item)).child == Leaving(From(s, actions).child.w, true)
  {
    StillThere(s, actions, gen);
  }

  lemma {:induction false} StillThere(s: Sys, actions: seq<Action>, gen: nat)
    requires gen > 0 && s.flag == gen && !AboutToEraseAnother(s.child, gen) && LeftAlone(s, actions)
    requires forall k: nat :: k < |actions| ==> !ClearsOwn(From(s, actions[..k]), actions[k], gen)
    ensures From(s, actions).flag == gen
    decreases |actions|
  {
    if actions != [] {
      assert From(s, actions[..0]) == s;
      OneStepKeeps(s, actions[0], gen);
      var t, rest := Step(s, actions[0]), actions[1..];
      forall k: nat | k < |rest| ensures !ClearsOwn(From(t, rest[..k]), rest[k], gen) {
        var m: nat := k + 1;
        assert actions[..m][0] == actions[0] && actions[..m][1..] == rest[..k];
        assert !ClearsOwn(From(s, actions[..m]), actions[m], gen);
      }
      StillThere(t, rest, gen);
    }
  }
}

/** What using a model, forcing it out and closing leave in the books. */
module EngineManagerUse {
  import opened EngineManager
  import opened EngineManagerProofs
  import opened EngineManagerIdle

  // ---------- a model in use is not idle soon after ----------

  /** The model's last use, so far as the manager remembers, is not before `n`. */
  predicate UsedSince(s: State, id: ModelId, n: int) {
    id in s.lastUsed && s.lastUsed[id] >= n && s.now >= n
  }

  lemma StillUsed(s: State, t: State, id: ModelId, n: int)
    requires UsedSince(s, id, n) && !s.closed && EvolvesAt(s, t, id) && s.now <= t.now
    ensures UsedSince(t, id, n)
  {
  }

  lemma TouchUses(s: State, id: ModelId)
    requires Base(s)
    ensures UsedSince(Touch(s, id), id, s.now) && Good(s, Touch(s, id))
  {
    TouchGood(s, id, id);
  }

  lemma SwitchUses(c: Config, o: Oracle, s: State, id: ModelId, hint: string, unloadPrevious: bool, load: bool)
    requires Base(s) && id in c.enabled && !s.closed
    ensures UsedSince(SwitchModel(c, o, s, id, hint, unloadPrevious, load).s, id, s.now)
  {
    var t := Touch(s, id);
    TouchUses(s, id);
    var u := MakeWay(o, t, id, unloadPrevious);
    UnloadGood(o, t, s.current, false);
    MarkGood(t, t.pending, t.dropFailed);
    SwitchRestGood(c, o, t, u, id, hint, load);
    StillUsed(t, SwitchRest(c, o, u, s.current, id, hint, load).s, id, s.now);
  }

  lemma EnterUses(c: Config, o: Oracle, s: State, id: ModelId, hint: string)
    requires Base(s) && id in c.enabled && !s.closed
    ensures UsedSince(BorrowEnter(c, o, s, id, hint).s, id, s.now)
  {
    var t := Touch(s, id);
    TouchUses(s, id);
    MarkGood(t, t.pending, t.dropFailed);
    SwitchGood(c, o, t, id, hint, true, true);
    var w := SwitchForBorrow(c, o, t, id, hint);
    if w.ok { ObtainRestGood(c, o, t, w.s, id, hint); }
    StillUsed(t, Obtain(c, o, s, id, hint).s, id, s.now);
  }

  lemma ExitUses(o: Oracle, s: State, id: ModelId)
    requires Base(s) && !s.closed && Live(s, id) > 0
    ensures UsedSince(BorrowExit(o, s, id), id, s.now)
  {
    var t := Returned(s, id);
    ReturnedGood(s, id);
    assert UsedSince(t, id, s.now);
    if Count(t, id) == 0 && id in s.pending {
      DropPendingIsDrop(o, t, id);
      DropGood(o, t, id, true, false);
      StillUsed(t, DropModel(o, t, id, true, false).s, id, s.now);
    }
  }

  lemma CreateAndLoadUses(o: Oracle, s: State, id: ModelId, hint: string, anew: bool)
    requires Base(s) && !s.closed && (if anew then true else id in s.engines && !s.engines[id].loaded)
    requires OthersUnloaded(s, id) && CreateAndLoad(o, s, id, true, hint, anew).ok
    ensures UsedSince(CreateAndLoad(o, s, id, true, hint, anew).s, id, s.now)
  {
    if anew { CreateGood(o, s, id, hint); }
  }

  /** Loading a model is a use of it. */
  lemma LoadUses(c: Config, o: Oracle, s: State, id: ModelId, hint: string)
    requires Base(s) && !IsLoaded(s, id) && GetEngine(c, o, s, id, true, hint).ok
    ensures UsedSince(GetEngine(c, o, s, id, true, hint).s, id, s.now)
  {
    UnloadOthersGood(o, s, id, s.order);
    var r := UnloadOthers(o, s, id, s.order).s;
    RoomForOne(r, id);
    assert NotNewlyLoaded(s, r, id);
    if NeedsReplacement(r, id, hint) {
      DropGood(o, r, id, false, true);
      var d := DropModel(o, r, id, false, true).s;
      OthersStayUnloaded(r, d, id);
      CreateAndLoadUses(o, d, id, hint, true);
    } else if id in r.engines && !r.engines[id].healthy {
      DropGood(o, r, id, true, false);
      var d := DropModel(o, r, id, true, false).s;
      OthersStayUnloaded(r, d, id);
      CreateAndLoadUses(o, d, id, hint, true);
    } else {
      CreateAndLoadUses(o, r, id, hint, id !in r.engines);
    }
  }

  /** The operation is a use of the model: a switch to it, a borrow of it, or the end of one. */
  predicate Uses(c: Config, s: State, op: Op, id: ModelId) {
    && !s.closed
    && ((op.Switch? && op.id == id && id in c.enabled) || (op.Enter? && op.id == id && id in c.enabled)
        || (op.Exit? && op.id == id && Live(s, id) > 0))
  }

  lemma UseCounts(c: Config, o: Oracle, s: State, op: Op, id: ModelId)
    requires Base(s) && Uses(c, s, op, id)
    ensures UsedSince(Step(c, o, s, op), id, s.now)
  {
    match op
    case Switch(_, hint, unloadPrevious, load) => SwitchUses(c, o, s, id, hint, unloadPrevious, load);
    case Enter(_, hint) => EnterUses(c, o, s, id, hint);
    case Exit(_) => ExitUses(o, s, id);
  }

  lemma {:induction false} UseIsRemembered(c: Config, o: Oracle, s: State, ops: seq<Op>, id: ModelId, n: int)
    requires Inv(s) && UsedSince(s, id, n) && !Run(c, o, s, ops).closed
    ensures UsedSince(Run(c, o, s, ops), id, n)
  {
    if ops != [] {
      var before, op := ops[..|ops| - 1], ops[|ops| - 1];
      var r := Run(c, o, s, before);
      RunInv(c, o, s, before);
      StepInv(c, o, r, op);
      UseIsRemembered(c, o, s, before, id, n);
      if !op.Begin? && !op.Release? && !op.Finish? {
        OrdinaryGood(c, o, r, op);
        StillUsed(r, Like(r, Step(c, o, r, op)), id, n);
      }
    }
  }

  /** Whatever happens after a use of a model, the idle pass does not find it idle before the timeout is over. */
  lemma UsedModelsAreSpared(c: Config, o: Oracle, model: ModelId, given: bool, loaded: bool, now: int, first: seq<Op>,
                            op: Op, more: seq<Op>, id: ModelId)
    requires var s := Run(c, o, Start(model, given, loaded, now), first);
             var u := Run(c, o, Step(c, o, s, op), more);
             Uses(c, s, op, id) && !u.closed && u.now < s.now + c.idleTimeout
    ensures var s := Run(c, o, Start(model, given, loaded, now), first);
            !Due(c, Run(c, o, Step(c, o, s, op), more), id)
  {
    var s := Run(c, o, Start(model, given, loaded, now), first);
    StartInv(model, given, loaded, now);
    RunInv(c, o, Start(model, given, loaded, now), first);
    UseCounts(c, o, s, op, id);
    StepInv(c, o, s, op);
    UseIsRemembered(c, o, Step(c, o, s, op), more, id, s.now);
  }

  // ---------- what force does to the counts ----------

  /** A forced unload or drop that succeeds leaves no borrow counted, and so does a load that fails; without force, and
      where it fails, no count changes. */
  lemma ForceClearsTheCount(o: Oracle, s: State, id: ModelId, force: bool, raiseIfBusy: bool)
    ensures var u := UnloadModel(o, s, id, force); if force && u.ok then Count(u.s, id) == 0 else u.s.active == s.active
    ensures var d := DropModel(o, s, id, force, raiseIfBusy);
            && (if force && d.ok then Count(d.s, id) == 0 else d.s.active == s.active)
            && (d.ok ==> id !in d.s.engines)
    ensures id in s.engines && !LoadEngine(o, s, id).ok ==>
              Count(LoadEngine(o, s, id).s, id) == 0 && id !in LoadEngine(o, s, id).s.engines
  {
    UnloadCounts(o, s, id, force);
    DropCounts(o, s, id, force, raiseIfBusy);
    DropDisowns(o, s, id, force, raiseIfBusy);
    if id in s.engines && !LoadEngine(o, s, id).ok { FailedLoadCounts(o, s, id); }
  }

  lemma UnloadCounts(o: Oracle, s: State, id: ModelId, force: bool)
    ensures var u := UnloadModel(o, s, id, force); if force && u.ok then Count(u.s, id) == 0 else u.s.active == s.active
  {
  }

  lemma DropCounts(o: Oracle, s: State, id: ModelId, force: bool, raiseIfBusy: bool)
    ensures var d := DropModel(o, s, id, force, raiseIfBusy);
            if force && d.ok then Count(d.s, id) == 0 else d.s.active == s.active
  {
    if id in s.engines {
      var u := CallUnload(o, s, id);
      assert u.s.active == s.active;
    }
  }

  lemma DropDisowns(o: Oracle, s: State, id: ModelId, force: bool, raiseIfBusy: bool)
    ensures var d := DropModel(o, s, id, force, raiseIfBusy); d.ok ==> id !in d.s.engines
  {
  }

  lemma FailedLoadCounts(o: Oracle, s: State, id: ModelId)
    requires id in s.engines && !LoadEngine(o, s, id).ok
    ensures Count(LoadEngine(o, s, id).s, id) == 0 && id !in LoadEngine(o, s, id).s.engines
  {
  }

  /** A cancel that is to kill takes the engine away if and only if its unload returns, whoever uses it; any other
      leaves everything alone, and no cancel touches another engine. */
  lemma CancelTakesTheEngine(c: Config, o: Oracle, s: State, id: ModelId, kill: bool, i: ModelId)
    ensures var t := Step(c, o, s, CancelRequest(id, kill));
            && (!kill ==> t == s)
            && (kill && id in s.engines ==> (id !in t.engines <==> o(s.calls).Returns?))
            && (i != id && i in s.engines ==> i in t.engines && t.engines[i] == s.engines[i])
  {
    if kill && id in s.engines {
      ForcedDropTakes(o, s, id);
      if i != id && i in s.engines { ForcedDropSpares(o, s, id, i); }
    }
  }

  lemma ForcedDropTakes(o: Oracle, s: State, id: ModelId)
    requires id in s.engines
    ensures id !in DropModel(o, s, id, true, false).s.engines <==> o(s.calls).Returns?
  {
  }

  lemma ForcedDropSpares(o: Oracle, s: State, id: ModelId, i: ModelId)
    requires id in s.engines && i in s.engines && i != id
    ensures var t := DropModel(o, s, id, true, false).s; i in t.engines && t.engines[i] == s.engines[i]
  {
    var u := CallUnload(o, s, id).s;
    assert u.engines[i] == s.engines[i];
  }

  // ---------- closing ----------

  /** From the beginning of closing on no drop waits for a borrower any more, and no borrower's exit calls an engine. */
  lemma ClosingForgetsTheDrops(s: State)
    requires s.job.NoJob? && s.engines != map[]
    ensures CloseBegin(s).pending == {} && CloseBegin(s).closed
  {
  }

  lemma ClosedExitIsQuiet(o: Oracle, s: State, id: ModelId)
    requires s.closed && Live(s, id) > 0
    ensures BorrowExit(o, s, id).calls == s.calls && BorrowExit(o, s, id).engines == s.engines
  {
  }

  /** At its end `close_all` forgets the counts and last uses of exactly the models whose engines it has unloaded. */
  lemma FinishForgetsTheReleased(c: Config, o: Oracle, s: State, ops: seq<Op>, snapshot: map<ModelId, nat>, id: ModelId)
    requires AtWork(c, o, s, ops, snapshot)
    ensures var u := Run(c, o, s, ops);
            var t := CloseFinish(u);
            if Unloaded(c, o, s, ops, id, true) then id !in t.active && id !in t.lastUsed
            else Count(t, id) == Count(u, id) && LastUse(t, id) == LastUse(u, id)
  {
    assert JobAt(c, o, s, ops, Run(c, o, s, ops).job, id);
  }
}

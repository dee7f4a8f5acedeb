/** Which model is current: switching makes the target the current one exactly when it succeeds, and nothing else ever
    changes it; a failed switch brings a model back that it had freed. */
module EngineManagerSwitch {
  import opened EngineManager
  import opened EngineManagerProofs

  // ---------- operations that leave the current model alone ----------

  lemma {:induction false} UnloadOthersKeepsCurrent(o: Oracle, s: State, target: ModelId, ids: seq<ModelId>)
    ensures UnloadOthers(o, s, target, ids).s.current == s.current
    decreases ids
  {
    if ids != [] {
      var u := UnloadModel(o, s, ids[0], false);
      if ids[0] == target || !IsLoaded(s, ids[0]) {
        UnloadOthersKeepsCurrent(o, s, target, ids[1..]);
      } else if u.ok {
        UnloadOthersKeepsCurrent(o, u.s, target, ids[1..]);
      }
    }
  }

  lemma CreateAndLoadKeepsCurrent(o: Oracle, s: State, id: ModelId, load: bool, hint: string, anew: bool)
    requires !anew ==> id in s.engines
    ensures CreateAndLoad(o, s, id, load, hint, anew).s.current == s.current
  {
  }

  lemma DropKeepsCurrent(o: Oracle, s: State, id: ModelId, force: bool, raiseIfBusy: bool)
    ensures DropModel(o, s, id, force, raiseIfBusy).s.current == s.current
  {
  }

  lemma GetRestKeepsCurrent(o: Oracle, r: State, id: ModelId, load: bool, hint: string, needsLoad: bool)
    ensures GetRest(o, r, id, load, hint, needsLoad).s.current == r.current
  {
    if NeedsReplacement(r, id, hint) {
      var d := DropModel(o, r, id, false, true).s;
      DropKeepsCurrent(o, r, id, false, true);
      UnloadOthersKeepsCurrent(o, d, id, d.order);
      var q := if load && !needsLoad then UnloadOthers(o, d, id, d.order) else Res(d, true);
      CreateAndLoadKeepsCurrent(o, q.s, id, load, hint, true);
    } else if id in r.engines && !r.engines[id].healthy {
      DropKeepsCurrent(o, r, id, true, false);
      CreateAndLoadKeepsCurrent(o, DropModel(o, r, id, true, false).s, id, load, hint, true);
    } else {
      CreateAndLoadKeepsCurrent(o, r, id, load, hint, id !in r.engines);
    }
  }

  lemma GetKeepsCurrent(c: Config, o: Oracle, s: State, id: ModelId, load: bool, hint: string)
    ensures GetEngine(c, o, s, id, load, hint).s.current == s.current
  {
    if id in c.enabled && !s.closed {
      var needsLoad := load && !IsLoaded(s, id);
      UnloadOthersKeepsCurrent(o, s, id, s.order);
      var r := if needsLoad then UnloadOthers(o, s, id, s.order) else Res(s, true);
      GetRestKeepsCurrent(o, r.s, id, load, hint, needsLoad);
    }
  }

  // ---------- what a switch does ----------

  /** A switch that succeeds makes its target the current model, owned and, if asked for, loaded; one that is refused or
      fails leaves the current model as it was. */
  lemma SwitchMakesCurrent(c: Config, o: Oracle, s: State, id: ModelId, hint: string, unloadPrevious: bool, load: bool)
    requires Base(s)
    ensures var r := SwitchModel(c, o, s, id, hint, unloadPrevious, load);
            && (r.ok ==> r.s.current == id && id in r.s.engines && (load ==> IsLoaded(r.s, id)))
            && (!r.ok ==> r.s.current == s.current)
  {
    if id in c.enabled && !s.closed {
      var t := Touch(s, id);
      var u := MakeWay(o, t, id, unloadPrevious);
      TouchGood(s, id, id);
      UnloadGood(o, t, s.current, false);
      assert Base(u.s) && u.s.current == s.current;
      GetGood(c, o, u.s, id, load, hint);
      GetKeepsCurrent(c, o, u.s, id, load, hint);
      GetKeepsCurrent(c, o, GetEngine(c, o, u.s, id, load, hint).s, s.current, true, "");
    }
  }

  // ---------- the model that was freed ----------

  lemma LoadFailsUnloaded(o: Oracle, s: State, id: ModelId)
    requires id in s.engines && !LoadEngine(o, s, id).ok
    ensures NoneLoaded(s, LoadEngine(o, s, id).s)
  {
    var t := LoadEngine(o, s, id).s;
    forall i ensures NotNewlyLoaded(s, t, i) {}
  }

  lemma LoadLoadsOne(o: Oracle, s: State, id: ModelId, i: ModelId)
    requires id in s.engines && i != id
    ensures NotNewlyLoaded(s, LoadEngine(o, s, id).s, i)
  {
  }

  lemma CreateLoadsNone(o: Oracle, s: State, id: ModelId, hint: string)
    ensures NoneLoaded(s, CreateEngine(o, s, id, hint).s)
  {
    var t := CreateEngine(o, s, id, hint).s;
    forall i ensures NotNewlyLoaded(s, t, i) {}
  }

  /** Getting an engine loads no model but its own, and none at all if it fails. */
  ghost predicate LoadsAtMost(s: State, g: Res, id: ModelId) {
    forall i :: i != id || !g.ok ==> NotNewlyLoaded(s, g.s, i)
  }

  lemma CreateAndLoadLoads(o: Oracle, s: State, id: ModelId, load: bool, hint: string, anew: bool)
    requires !anew ==> id in s.engines
    ensures LoadsAtMost(s, CreateAndLoad(o, s, id, load, hint, anew), id)
  {
    var g := CreateAndLoad(o, s, id, load, hint, anew);
    var e := if anew then CreateEngine(o, s, id, hint) else Res(s, true);
    if anew { CreateLoadsNone(o, s, id, hint); }
    forall i ensures NotNewlyLoaded(s, e.s, i) {}
    if e.ok && load && !e.s.engines[id].loaded {
      forall i | i != id || !g.ok ensures NotNewlyLoaded(s, g.s, i) {
        assert NotNewlyLoaded(s, e.s, i);
        if g.ok {
          LoadLoadsOne(o, e.s, id, i);
        } else {
          LoadFailsUnloaded(o, e.s, id);
          assert NotNewlyLoaded(e.s, g.s, i);
        }
      }
    }
  }

  lemma LoadsAfter(s: State, t: State, g: Res, id: ModelId)
    requires NoneLoaded(s, t) && LoadsAtMost(t, g, id)
    ensures LoadsAtMost(s, g, id)
  {
    forall i | i != id || !g.ok ensures NotNewlyLoaded(s, g.s, i) {
      assert NotNewlyLoaded(s, t, i) && NotNewlyLoaded(t, g.s, i);
    }
  }

  lemma NothingLoads(s: State, id: ModelId)
    ensures NoneLoaded(s, s) && LoadsAtMost(s, Res(s, false), id) && LoadsAtMost(s, Res(s, true), id)
  {
    forall i ensures NotNewlyLoaded(s, s, i) {}
  }

  lemma GetRestLoads(o: Oracle, r: State, id: ModelId, load: bool, hint: string, needsLoad: bool)
    requires Base(r)
    ensures LoadsAtMost(r, GetRest(o, r, id, load, hint, needsLoad), id)
  {
    NothingLoads(r, id);
    if NeedsReplacement(r, id, hint) {
      if Count(r, id) <= 0 {
        DropGood(o, r, id, false, true);
        var d := DropModel(o, r, id, false, true).s;
        NothingLoads(d, id);
        UnloadOthersGood(o, d, id, d.order);
        var q := if load && !needsLoad then UnloadOthers(o, d, id, d.order) else Res(d, true);
        NoneLoadedOn(r, d, q.s);
        if q.ok {
          CreateAndLoadLoads(o, q.s, id, load, hint, true);
          LoadsAfter(r, q.s, CreateAndLoad(o, q.s, id, load, hint, true), id);
        }
      }
    } else if id in r.engines && !r.engines[id].healthy {
      DropGood(o, r, id, true, false);
      var d := DropModel(o, r, id, true, false).s;
      CreateAndLoadLoads(o, d, id, load, hint, true);
      LoadsAfter(r, d, CreateAndLoad(o, d, id, load, hint, true), id);
    } else {
      CreateAndLoadLoads(o, r, id, load, hint, id !in r.engines);
    }
  }

  lemma GetLoads(c: Config, o: Oracle, s: State, id: ModelId, load: bool, hint: string)
    requires Base(s)
    ensures LoadsAtMost(s, GetEngine(c, o, s, id, load, hint), id)
  {
    NothingLoads(s, id);
    if id in c.enabled && !s.closed {
      var needsLoad := load && !IsLoaded(s, id);
      UnloadOthersGood(o, s, id, s.order);
      var r := if needsLoad then UnloadOthers(o, s, id, s.order) else Res(s, true);
      if r.ok {
        GetRestLoads(o, r.s, id, load, hint, needsLoad);
        LoadsAfter(s, r.s, GetRest(o, r.s, id, load, hint, needsLoad), id);
      }
    }
  }

  /** When a switch fails that has freed the model it was to leave, that model is loaded again if and only if it can be
      had; what it takes is tried in the state that the failure has left. */
  lemma FailedSwitchRollsBack(c: Config, o: Oracle, s: State, id: ModelId, hint: string, load: bool)
    requires Base(s) && id in c.enabled && !s.closed && s.current != id
    requires MakeWay(o, Touch(s, id), id, true).ok && !SwitchModel(c, o, s, id, hint, true, load).ok
    ensures var u := MakeWay(o, Touch(s, id), id, true).s;
            var g := GetEngine(c, o, u, id, load, hint);
            var again := GetEngine(c, o, g.s, s.current, true, "");
            var r := SwitchModel(c, o, s, id, hint, true, load);
            && !IsLoaded(u, s.current) && !g.ok && r.s == again.s
            && (IsLoaded(r.s, s.current) <==> again.ok)
  {
    var t := Touch(s, id);
    TouchGood(s, id, id);
    UnloadGood(o, t, s.current, false);
    var u := MakeWay(o, t, id, true).s;
    GetGood(c, o, u, id, load, hint);
    GetLoads(c, o, u, id, load, hint);
    var g := GetEngine(c, o, u, id, load, hint);
    GetGood(c, o, g.s, s.current, true, "");
    GetLoads(c, o, g.s, s.current, true, "");
    assert NotNewlyLoaded(u, g.s, s.current);
    var again := GetEngine(c, o, g.s, s.current, true, "");
    if !again.ok { assert NotNewlyLoaded(g.s, again.s, s.current); }
  }

  // ---------- what becomes of the model that a switch leaves ----------

  /** A switch that is to unload the model it leaves does so, if that is idle and its unload returns. */
  lemma SwitchFreesPrevious(c: Config, o: Oracle, s: State, id: ModelId, hint: string, load: bool)
    requires Base(s) && s.current != id && Count(s, s.current) <= 0 && o(s.calls).Returns?
    requires SwitchModel(c, o, s, id, hint, true, load).ok
    ensures !IsLoaded(SwitchModel(c, o, s, id, hint, true, load).s, s.current)
  {
    var t := Touch(s, id);
    TouchGood(s, id, id);
    var u := MakeWay(o, t, id, true).s;
    UnloadGood(o, t, s.current, false);
    GetLoads(c, o, u, id, load, hint);
    assert !IsLoaded(u, s.current) && NotNewlyLoaded(u, GetEngine(c, o, u, id, load, hint).s, s.current);
  }

  ghost predicate Spared(s: State, t: State, i: ModelId) {
    i in s.engines ==> i in t.engines && t.engines[i] == s.engines[i]
  }

  lemma DropSparesOthers(o: Oracle, s: State, id: ModelId, force: bool, raiseIfBusy: bool, i: ModelId)
    requires i != id
    ensures Spared(s, DropModel(o, s, id, force, raiseIfBusy).s, i)
  {
  }

  lemma CreateSparesOthers(o: Oracle, s: State, id: ModelId, hint: string, anew: bool, i: ModelId)
    requires i != id && (!anew ==> id in s.engines)
    ensures Spared(s, CreateAndLoad(o, s, id, false, hint, anew).s, i)
  {
  }

  lemma GetUnloadedSparesOthers(c: Config, o: Oracle, s: State, id: ModelId, hint: string, i: ModelId)
    requires i != id
    ensures Spared(s, GetEngine(c, o, s, id, false, hint).s, i)
  {
    if id in c.enabled && !s.closed {
      var d, e := DropModel(o, s, id, false, true).s, DropModel(o, s, id, true, false).s;
      DropSparesOthers(o, s, id, false, true, i);
      DropSparesOthers(o, s, id, true, false, i);
      CreateSparesOthers(o, d, id, hint, true, i);
      CreateSparesOthers(o, e, id, hint, true, i);
      CreateSparesOthers(o, s, id, hint, id !in s.engines, i);
      assert GetEngine(c, o, s, id, false, hint) == GetRest(o, s, id, false, hint, false);
    }
  }

  /** A switch that is not to unload the model it leaves, or finds it in use, and need not load its target, leaves that
      engine as it is. */
  lemma SwitchSparesPrevious(c: Config, o: Oracle, s: State, id: ModelId, hint: string, unloadPrevious: bool)
    requires s.current != id && s.current in s.engines && (!unloadPrevious || Count(s, s.current) > 0)
    ensures var t := SwitchModel(c, o, s, id, hint, unloadPrevious, false).s;
            s.current in t.engines && t.engines[s.current] == s.engines[s.current]
  {
    if id in c.enabled && !s.closed {
      assert MakeWay(o, Touch(s, id), id, unloadPrevious) == Res(Touch(s, id), false);
      var t := Touch(s, id);
      GetUnloadedSparesOthers(c, o, t, id, hint, s.current);
      assert Spared(t, GetEngine(c, o, t, id, false, hint).s, s.current);
    }
  }

  // ---------- over whole runs ----------

  lemma {:induction false} IdleKeepsCurrent(c: Config, o: Oracle, s: State, ids: seq<ModelId>)
    ensures IdlePass(c, o, s, ids).current == s.current
    decreases ids
  {
    if ids != [] && c.idleTimeout > 0 {
      IdleKeepsCurrent(c, o, if IdleSkips(c, s, ids[0]) then s else UnloadModel(o, s, ids[0], false).s, ids[1..]);
    }
  }

  lemma {:induction false} UnloadInactiveKeepsCurrent(o: Oracle, s: State, force: bool, includeCurrent: bool,
                                                      ids: seq<ModelId>)
    ensures UnloadInactive(o, s, force, includeCurrent, ids).current == s.current
    decreases ids
  {
    if ids != [] {
      var t := if ids[0] == s.current && !includeCurrent then s else UnloadModel(o, s, ids[0], force).s;
      UnloadInactiveKeepsCurrent(o, t, force, includeCurrent, ids[1..]);
    }
  }

  /** Entering a borrow makes the model current if the configuration says that one is unloaded for the other. */
  lemma EnterMakesCurrent(c: Config, o: Oracle, s: State, id: ModelId, hint: string)
    requires Base(s)
    ensures var r := BorrowEnter(c, o, s, id, hint);
            && (r.s.current == s.current || (c.unloadOnSwitch && r.s.current == id))
            && (r.ok && c.unloadOnSwitch ==> r.s.current == id)
  {
    if id in c.enabled && !s.closed {
      var t := Touch(s, id);
      TouchGood(s, id, id);
      if id != t.current && c.unloadOnSwitch { SwitchMakesCurrent(c, o, t, id, hint, true, true); }
      var w := SwitchForBorrow(c, o, t, id, hint);
      if w.ok { RestKeepsCurrent(c, o, w.s, id, hint); }
    }
  }

  lemma RestKeepsCurrent(c: Config, o: Oracle, s: State, id: ModelId, hint: string)
    ensures ObtainRest(c, o, s, id, hint).s.current == s.current
  {
    var g := GetEngine(c, o, s, id, true, hint);
    GetKeepsCurrent(c, o, s, id, true, hint);
    DropKeepsCurrent(o, g.s, id, true, false);
    GetKeepsCurrent(c, o, DropModel(o, g.s, id, true, false).s, id, true, hint);
  }

  lemma OthersKeepCurrent(c: Config, o: Oracle, s: State, op: Op)
    requires !op.Switch? && !op.Enter?
    ensures Step(c, o, s, op).current == s.current
  {
    match op
    case Get(id, load, hint) => GetKeepsCurrent(c, o, s, id, load, hint);
    case UnloadIdle(force, includeCurrent) => UnloadInactiveKeepsCurrent(o, s, force, includeCurrent, s.order);
    case Idle => IdleKeepsCurrent(c, o, s, s.order);
    case Exit(id) => if Live(s, id) > 0 { ExitKeepsCurrent(o, s, id); }
    case Drop(id, force, raiseIfBusy) => DropKeepsCurrent(o, s, id, force, raiseIfBusy);
    case CancelRequest(id, kill) => DropKeepsCurrent(o, s, id, true, false);
    case Release(id) => if Unloadable(s, id) { ReleaseKeepsCurrent(o, s, id); }
    case _ => SimpleOpsKeepCurrent(c, o, s, op);
  }

  lemma ReleaseKeepsCurrent(o: Oracle, s: State, id: ModelId)
    requires Unloadable(s, id)
    ensures CloseRelease(o, s, id).current == s.current
  {
    var owned := id in s.engines && s.engines[id].serial == s.job.snapshot[id];
    var u := if owned then CallUnload(o, s, id).s else Called(s);
    assert u.current == s.current;
  }

  lemma ExitKeepsCurrent(o: Oracle, s: State, id: ModelId)
    requires Live(s, id) > 0
    ensures BorrowExit(o, s, id).current == s.current
  {
    var t := Returned(s, id);
    assert t.current == s.current;
    DropKeepsCurrent(o, t.(pending := t.pending - {id}), id, true, false);
  }

  lemma SimpleOpsKeepCurrent(c: Config, o: Oracle, s: State, op: Op)
    requires op.Unload? || op.Begin? || op.Finish? || op.Tick? || op.SelfLoad? || op.Decay?
    ensures Step(c, o, s, op).current == s.current
  {
  }

  /** In every run the current model changes only with a switch to another model or a borrow of it, and only to that
      model; a switch changes it exactly if it succeeds. */
  lemma CurrentChangesOnlyBySwitching(c: Config, o: Oracle, model: ModelId, given: bool, loaded: bool, now: int,
                                      ops: seq<Op>, op: Op)
    ensures var s := Run(c, o, Start(model, given, loaded, now), ops);
            var t := Step(c, o, s, op);
            && (!op.Switch? && !op.Enter? ==> t.current == s.current)
            && (op.Switch? ==>
                  t.current == if SwitchModel(c, o, s, op.id, op.hint, op.unloadPrevious, op.load).ok then op.id
                               else s.current)
            && (op.Enter? ==> t.current == s.current || (c.unloadOnSwitch && t.current == op.id))
            && (op.Enter? && c.unloadOnSwitch && BorrowEnter(c, o, s, op.id, op.hint).ok ==> t.current == op.id)
  {
    var s := Run(c, o, Start(model, given, loaded, now), ops);
    StartInv(model, given, loaded, now);
    RunInv(c, o, Start(model, given, loaded, now), ops);
    match op
    case Switch(id, hint, unloadPrevious, load) => SwitchMakesCurrent(c, o, s, id, hint, unloadPrevious, load);
    case Enter(id, hint) => EnterMakesCurrent(c, o, s, id, hint);
    case _ => OthersKeepCurrent(c, o, s, op);
  }
}

/** Runs without forced operations, in which a borrowed engine stays healthy and loaded: counts are exact, no model
    in use is ever unloaded, and a drop that was put off is carried out by the last borrower. */
module EngineManagerBorrows {
  import opened EngineManager
  import opened EngineManagerProofs

  ghost predicate ExactAt(s: State, id: ModelId) {
    && Count(s, id) == Live(s, id)
    && (Live(s, id) > 0 ==> id in s.engines && s.engines[id].loaded && s.engines[id].healthy)
    && (id in s.pending && Live(s, id) == 0 ==> id in s.dropFailed)
  }

  ghost predicate Exact(s: State) {
    !s.closed && forall id :: ExactAt(s, id)
  }

  ghost predicate KeptAt(s: State, t: State, id: ModelId) {
    Live(s, id) > 0 ==> id in s.engines && id in t.engines && t.engines[id] == s.engines[id]
  }

  ghost predicate Fine(s: State, t: State) {
    Exact(t) && t.live == s.live && forall id :: KeptAt(s, t, id)
  }

  lemma FineThen(s: State, t: State, u: State)
    requires Fine(s, t) && Fine(t, u)
    ensures Fine(s, u)
  {
    forall id ensures KeptAt(s, u, id) { assert KeptAt(s, t, id) && KeptAt(t, u, id); }
  }

  /** A change that only touches one model, which nobody has borrowed. */
  lemma FineApartFrom(s: State, t: State, id: ModelId)
    requires Exact(s) && Live(s, id) == 0 && t.live == s.live && !t.closed
    requires Count(t, id) == 0 && (id in t.pending ==> id in t.dropFailed)
    requires forall i :: i != id ==> Same(s, t, i)
    ensures Fine(s, t)
  {
    forall i ensures ExactAt(t, i) && KeptAt(s, t, i) {
      assert ExactAt(s, i);
      if i != id { assert Same(s, t, i); }
    }
  }

  ghost predicate Same(s: State, t: State, i: ModelId) {
    && (i in s.engines <==> i in t.engines) && (i in s.engines ==> s.engines[i] == t.engines[i])
    && Count(s, i) == Count(t, i) && (i in t.pending ==> i in s.pending) && (i in s.dropFailed ==> i in t.dropFailed)
  }

  lemma NothingFine(s: State)
    requires Exact(s)
    ensures Fine(s, s)
  {
    forall i ensures KeptAt(s, s, i) { assert ExactAt(s, i); }
  }

  lemma TouchFine(s: State, id: ModelId, current: ModelId, now: int)
    requires Exact(s)
    ensures Fine(s, Touch(s, id)) && Fine(s, s.(current := current)) && Fine(s, s.(now := now))
  {
    var t, u, v := Touch(s, id), s.(current := current), s.(now := now);
    forall i ensures ExactAt(t, i) && KeptAt(s, t, i) { assert ExactAt(s, i); }
    forall i ensures ExactAt(u, i) && KeptAt(s, u, i) { assert ExactAt(s, i); }
    forall i ensures ExactAt(v, i) && KeptAt(s, v, i) { assert ExactAt(s, i); }
  }

  lemma UnloadFine(o: Oracle, s: State, id: ModelId, force: bool)
    requires Exact(s) && (force ==> Live(s, id) == 0)
    ensures Fine(s, UnloadModel(o, s, id, force).s)
  {
    NothingFine(s);
    assert ExactAt(s, id);
    if Live(s, id) == 0 && id in s.engines {
      CallUnloadFine(o, s, id);
      var u := CallUnload(o, s, id).s;
      assert ExactAt(u, id);
      BooksFine(u, id, u.pending, u.dropFailed);
      FineThen(s, u, u.(active := u.active[id := 0]));
    }
  }

  lemma DropBusyFine(s: State, id: ModelId)
    requires Exact(s) && Live(s, id) > 0
    ensures Fine(s, s.(pending := s.pending + {id}))
  {
    var t := s.(pending := s.pending + {id});
    forall i ensures ExactAt(t, i) && KeptAt(s, t, i) { assert ExactAt(s, i); }
  }

  lemma CallUnloadFine(o: Oracle, s: State, id: ModelId)
    requires Exact(s) && Live(s, id) == 0 && id in s.engines
    ensures Fine(s, CallUnload(o, s, id).s)
  {
    assert ExactAt(s, id);
    var t := CallUnload(o, s, id).s;
    forall i | i != id ensures Same(s, t, i) {}
    FineApartFrom(s, t, id);
  }

  /** The books of a model nobody has borrowed may be rewritten, if a mark on it is explained. */
  lemma BooksFine(s: State, id: ModelId, pending: set<ModelId>, dropFailed: set<ModelId>)
    requires Exact(s) && Live(s, id) == 0 && (id in pending ==> id in dropFailed)
    requires pending <= s.pending + {id} && s.dropFailed <= dropFailed + {id}
    ensures Fine(s, s.(pending := pending, dropFailed := dropFailed))
    ensures Fine(s, s.(pending := pending, dropFailed := dropFailed, active := s.active[id := 0]))
  {
    assert ExactAt(s, id);
    var t := s.(pending := pending, dropFailed := dropFailed);
    forall i | i != id ensures Same(s, t, i) {}
    FineApartFrom(s, t, id);
    var u := t.(active := s.active[id := 0]);
    forall i | i != id ensures Same(s, u, i) {}
    FineApartFrom(s, u, id);
  }

  lemma DisownFine(s: State, id: ModelId)
    requires Exact(s) && Live(s, id) == 0
    ensures Fine(s, Disown(s, id))
  {
    assert ExactAt(s, id);
    var t := s.(engines := s.engines - {id}, order := Without(s.order, id));
    forall i | i != id ensures Same(s, t, i) {}
    FineApartFrom(s, t, id);
  }

  lemma DropIdleFine(o: Oracle, s: State, id: ModelId, force: bool, raiseIfBusy: bool)
    requires Exact(s) && Live(s, id) == 0
    ensures Fine(s, DropModel(o, s, id, force, raiseIfBusy).s)
  {
    assert ExactAt(s, id);
    if id !in s.engines {
      BooksFine(s, id, s.pending - {id}, s.dropFailed);
    } else {
      CallUnloadFine(o, s, id);
      var u := CallUnload(o, s, id).s;
      if o(s.calls).Raises? {
        BooksFine(u, id, u.pending + {id}, u.dropFailed + {id});
        FineThen(s, u, DropModel(o, s, id, force, raiseIfBusy).s);
      } else {
        DisownFine(u, id);
        BooksFine(Disown(u, id), id, u.pending - {id}, u.dropFailed - {id});
        FineThen(s, u, Disown(u, id));
        FineThen(s, Disown(u, id), DropModel(o, s, id, force, raiseIfBusy).s);
      }
    }
  }

  lemma DropFine(o: Oracle, s: State, id: ModelId, force: bool, raiseIfBusy: bool)
    requires Exact(s) && (force ==> Live(s, id) == 0)
    ensures Fine(s, DropModel(o, s, id, force, raiseIfBusy).s)
  {
    NothingFine(s);
    assert ExactAt(s, id);
    if Live(s, id) == 0 {
      DropIdleFine(o, s, id, force, raiseIfBusy);
    } else {
      DropBusyFine(s, id);
    }
  }

  lemma {:induction false} UnloadOthersFine(o: Oracle, s: State, target: ModelId, ids: seq<ModelId>)
    requires Exact(s)
    ensures Fine(s, UnloadOthers(o, s, target, ids).s)
    decreases ids
  {
    NothingFine(s);
    if ids == [] {
    } else if ids[0] == target || !IsLoaded(s, ids[0]) {
      UnloadOthersFine(o, s, target, ids[1..]);
    } else if Count(s, ids[0]) <= 0 {
      UnloadFine(o, s, ids[0], false);
      var u := UnloadModel(o, s, ids[0], false);
      if u.ok {
        UnloadOthersFine(o, u.s, target, ids[1..]);
        FineThen(s, u.s, UnloadOthers(o, u.s, target, ids[1..]).s);
      }
    }
  }

  lemma CreateFine(o: Oracle, s: State, id: ModelId, hint: string)
    requires Exact(s) && Live(s, id) == 0
    ensures FineGot(s, CreateEngine(o, s, id, hint), id)
  {
    assert ExactAt(s, id);
    var t := CreateEngine(o, s, id, hint).s;
    forall i | i != id ensures Same(s, t, i) {}
    FineApartFrom(s, t, id);
  }

  lemma DiscardFine(o: Oracle, s: State, id: ModelId)
    requires Exact(s) && id in s.engines && Live(s, id) == 0
    ensures Fine(s, DiscardFailedLoad(o, s, id))
  {
    assert ExactAt(s, id);
    var z := s.(active := s.active[id := 0]);
    BooksFine(s, id, s.pending, s.dropFailed);
    CallUnloadFine(o, z, id);
    var u := CallUnload(o, z, id).s;
    DisownFine(u, id);
    FineThen(s, z, u);
    FineThen(s, u, Disown(u, id));
  }

  lemma LoadedFine(s: State, id: ModelId, calls: nat, healthy: bool)
    requires Exact(s) && id in s.engines && Live(s, id) == 0
    ensures Fine(s, s.(calls := calls)) && Fine(s, Loaded(s.(calls := calls), id, healthy))
  {
    assert ExactAt(s, id);
    var t, u := Loaded(s.(calls := calls), id, healthy), s.(calls := calls);
    forall i | i != id ensures Same(s, t, i) && Same(s, u, i) {}
    FineApartFrom(s, t, id);
    FineApartFrom(s, u, id);
  }

  lemma LoadFine(o: Oracle, s: State, id: ModelId)
    requires Exact(s) && id in s.engines && Live(s, id) == 0
    ensures FineGot(s, LoadEngine(o, s, id), id)
  {
    var how := o(s.calls);
    LoadedFine(s, id, s.calls + 1, how.Returns? && how.healthy);
    if how.Raises? {
      var t := s.(calls := s.calls + 1);
      DiscardFine(o, t, id);
      FineThen(s, t, DiscardFailedLoad(o, t, id));
    }
  }

  /** A `get_engine` that returned left the engine owned. */
  ghost predicate FineGot(s: State, g: Res, id: ModelId) {
    Fine(s, g.s) && (g.ok ==> id in g.s.engines)
  }

  lemma CreateAndLoadFine(o: Oracle, s: State, id: ModelId, load: bool, hint: string, anew: bool)
    requires Exact(s) && (if anew then Live(s, id) == 0 else id in s.engines)
    ensures FineGot(s, CreateAndLoad(o, s, id, load, hint, anew), id)
  {
    NothingFine(s);
    if anew { CreateFine(o, s, id, hint); }
    var c := if anew then CreateEngine(o, s, id, hint) else Res(s, true);
    if c.ok && load && !c.s.engines[id].loaded {
      assert ExactAt(c.s, id);
      LoadFine(o, c.s, id);
      FineThen(s, c.s, LoadEngine(o, c.s, id).s);
    }
  }

  lemma ReplaceFine(o: Oracle, r: State, id: ModelId, load: bool, hint: string, needsLoad: bool)
    requires Exact(r) && NeedsReplacement(r, id, hint) && Live(r, id) == 0
    ensures FineGot(r, GetRest(o, r, id, load, hint, needsLoad), id)
  {
    assert ExactAt(r, id);
    DropFine(o, r, id, false, true);
    var d := DropModel(o, r, id, false, true).s;
    var looks := load && !needsLoad;
    NothingFine(d);
    if looks { UnloadOthersFine(o, d, id, d.order); }
    var q := if looks then UnloadOthers(o, d, id, d.order) else Res(d, true);
    FineThen(r, d, q.s);
    if q.ok {
      assert Live(q.s, id) == 0;
      CreateAndLoadFine(o, q.s, id, load, hint, true);
      FineThen(r, q.s, CreateAndLoad(o, q.s, id, load, hint, true).s);
    }
  }

  lemma GetRestFine(o: Oracle, r: State, id: ModelId, load: bool, hint: string, needsLoad: bool)
    requires Exact(r)
    ensures FineGot(r, GetRest(o, r, id, load, hint, needsLoad), id)
  {
    NothingFine(r);
    assert ExactAt(r, id);
    if NeedsReplacement(r, id, hint) {
      if Count(r, id) <= 0 { ReplaceFine(o, r, id, load, hint, needsLoad); }
    } else if id in r.engines && !r.engines[id].healthy {
      DropFine(o, r, id, true, false);
      var d := DropModel(o, r, id, true, false).s;
      CreateAndLoadFine(o, d, id, load, hint, true);
      FineThen(r, d, CreateAndLoad(o, d, id, load, hint, true).s);
    } else {
      CreateAndLoadFine(o, r, id, load, hint, id !in r.engines);
    }
  }

  lemma GetFine(c: Config, o: Oracle, s: State, id: ModelId, load: bool, hint: string)
    requires Exact(s)
    ensures FineGot(s, GetEngine(c, o, s, id, load, hint), id)
  {
    NothingFine(s);
    if id in c.enabled {
      var needsLoad := load && !IsLoaded(s, id);
      if needsLoad { UnloadOthersFine(o, s, id, s.order); }
      var r := if needsLoad then UnloadOthers(o, s, id, s.order) else Res(s, true);
      if r.ok {
        GetRestFine(o, r.s, id, load, hint, needsLoad);
        FineThen(s, r.s, GetRest(o, r.s, id, load, hint, needsLoad).s);
      }
    }
  }

  lemma SwitchRestFine(c: Config, o: Oracle, u: Res, previous: ModelId, id: ModelId, hint: string, load: bool)
    requires Exact(u.s)
    ensures Fine(u.s, SwitchRest(c, o, u, previous, id, hint, load).s)
  {
    GetFine(c, o, u.s, id, load, hint);
    var g := GetEngine(c, o, u.s, id, load, hint);
    if g.ok {
      TouchFine(g.s, id, id, 0);
      FineThen(u.s, g.s, g.s.(current := id));
    } else if u.ok {
      GetFine(c, o, g.s, previous, true, "");
      FineThen(u.s, g.s, GetEngine(c, o, g.s, previous, true, "").s);
    }
  }

  lemma SwitchFine(c: Config, o: Oracle, s: State, id: ModelId, hint: string, unloadPrevious: bool, load: bool)
    requires Exact(s)
    ensures Fine(s, SwitchModel(c, o, s, id, hint, unloadPrevious, load).s)
  {
    NothingFine(s);
    if id in c.enabled {
      TouchFine(s, id, id, 0);
      var t := Touch(s, id);
      NothingFine(t);
      UnloadFine(o, t, s.current, false);
      var u := MakeWay(o, t, id, unloadPrevious);
      FineThen(s, t, u.s);
      SwitchRestFine(c, o, u, s.current, id, hint, load);
      FineThen(s, u.s, SwitchRest(c, o, u, s.current, id, hint, load).s);
    }
  }

  lemma ObtainRestFine(c: Config, o: Oracle, w: State, id: ModelId, hint: string)
    requires Exact(w)
    ensures FineGot(w, ObtainRest(c, o, w, id, hint), id)
  {
    GetFine(c, o, w, id, true, hint);
    var g := GetEngine(c, o, w, id, true, hint);
    if g.ok && !g.s.engines[id].healthy {
      assert ExactAt(g.s, id);
      DropFine(o, g.s, id, true, false);
      var d := DropModel(o, g.s, id, true, false).s;
      GetFine(c, o, d, id, true, hint);
      FineThen(w, g.s, d);
      FineThen(w, d, GetEngine(c, o, d, id, true, hint).s);
    }
  }

  lemma ObtainFine(c: Config, o: Oracle, s: State, id: ModelId, hint: string)
    requires Exact(s)
    ensures FineGot(s, Obtain(c, o, s, id, hint), id)
  {
    NothingFine(s);
    if id in c.enabled {
      TouchFine(s, id, id, 0);
      var t := Touch(s, id);
      NothingFine(t);
      SwitchFine(c, o, t, id, hint, true, true);
      var w := SwitchForBorrow(c, o, t, id, hint);
      FineThen(s, t, w.s);
      if w.ok {
        ObtainRestFine(c, o, w.s, id, hint);
        FineThen(s, w.s, ObtainRest(c, o, w.s, id, hint).s);
      }
    }
  }

  /** Every model borrowed before and after keeps the very engine it was borrowed with. */
  ghost predicate InUseKept(s: State, t: State) {
    Exact(t) && forall id :: Live(t, id) > 0 ==> KeptAt(s, t, id)
  }

  lemma FineIsKept(s: State, t: State)
    requires Fine(s, t)
    ensures InUseKept(s, t)
  {
  }

  /** The engine that a borrow hands out, if it does, is healthy. */
  predicate HandsOutHealthy(c: Config, o: Oracle, s: State, id: ModelId, hint: string) {
    var h := Obtain(c, o, s, id, hint);
    h.ok ==> id in h.s.engines && h.s.engines[id].healthy
  }

  lemma EnterFine(c: Config, o: Oracle, s: State, id: ModelId, hint: string)
    requires Exact(s) && Base(s) && HandsOutHealthy(c, o, s, id, hint)
    ensures InUseKept(s, BorrowEnter(c, o, s, id, hint).s)
  {
    ObtainFine(c, o, s, id, hint);
    ObtainGood(c, o, s, id, hint);
    var h := Obtain(c, o, s, id, hint);
    if h.ok {
      var t := Register(h.s, id);
      forall i ensures ExactAt(t, i) && KeptAt(s, t, i) { assert ExactAt(h.s, i) && KeptAt(s, h.s, i); }
    }
  }

  lemma ExitFine(o: Oracle, s: State, id: ModelId)
    requires Exact(s) && Live(s, id) > 0
    ensures InUseKept(s, BorrowExit(o, s, id))
  {
    var t := Returned(s, id);
    assert ExactAt(s, id);
    if Live(s, id) == 1 && id in s.pending {
      var v := t.(pending := t.pending - {id});
      forall i ensures ExactAt(v, i) && (Live(v, i) > 0 ==> KeptAt(s, v, i)) { assert ExactAt(s, i); }
      DropFine(o, v, id, true, false);
      var d := DropModel(o, v, id, true, false).s;
      forall i | Live(d, i) > 0 ensures KeptAt(s, d, i) { assert KeptAt(v, d, i); }
    } else {
      forall i ensures ExactAt(t, i) && (Live(t, i) > 0 ==> KeptAt(s, t, i)) { assert ExactAt(s, i); }
    }
  }

  lemma {:induction false} IdleFine(c: Config, o: Oracle, s: State, ids: seq<ModelId>)
    requires Exact(s)
    ensures Fine(s, IdlePass(c, o, s, ids))
    decreases ids
  {
    NothingFine(s);
    if ids != [] && c.idleTimeout > 0 {
      UnloadFine(o, s, ids[0], false);
      var t := if IdleSkips(c, s, ids[0]) then s else UnloadModel(o, s, ids[0], false).s;
      IdleFine(c, o, t, ids[1..]);
      FineThen(s, t, IdlePass(c, o, t, ids[1..]));
    }
  }

  lemma {:induction false} UnloadInactiveFine(o: Oracle, s: State, includeCurrent: bool, ids: seq<ModelId>)
    requires Exact(s)
    ensures Fine(s, UnloadInactive(o, s, false, includeCurrent, ids))
    decreases ids
  {
    NothingFine(s);
    if ids != [] {
      UnloadFine(o, s, ids[0], false);
      var t := if ids[0] == s.current && !includeCurrent then s else UnloadModel(o, s, ids[0], false).s;
      UnloadInactiveFine(o, t, includeCurrent, ids[1..]);
      FineThen(s, t, UnloadInactive(o, t, false, includeCurrent, ids[1..]));
    }
  }

  /** No forced operation, no closing, and no borrowed engine is or becomes unhealthy. */
  predicate Unforced(c: Config, o: Oracle, s: State, op: Op) {
    match op
    case Enter(id, hint) => HandsOutHealthy(c, o, s, id, hint)
    case Unload(_, force) => !force
    case Drop(_, force, _) => !force
    case UnloadIdle(force, _) => !force
    case CancelRequest(_, kill) => !kill
    case Decay(id, _, _) => Live(s, id) == 0
    case Begin => false
    case Release(_) => false
    case Finish => false
    case _ => true
  }

  lemma DecayFine(s: State, id: ModelId, staysLoaded: bool, healthy: bool)
    requires Exact(s) && Live(s, id) == 0
    ensures Fine(s, DecayStep(s, id, staysLoaded, healthy))
  {
    assert ExactAt(s, id);
    var t := DecayStep(s, id, staysLoaded, healthy);
    forall i | i != id ensures Same(s, t, i) {}
    FineApartFrom(s, t, id);
  }

  lemma StepFine(c: Config, o: Oracle, s: State, op: Op)
    requires Exact(s) && Base(s) && Unforced(c, o, s, op)
    ensures InUseKept(s, Step(c, o, s, op))
  {
    NothingFine(s);
    FineIsKept(s, s);
    var t := Step(c, o, s, op);
    match op
    case Get(id, load, hint) => GetFine(c, o, s, id, load, hint); FineIsKept(s, t);
    case Switch(id, hint, up, load) => SwitchFine(c, o, s, id, hint, up, load); FineIsKept(s, t);
    case Enter(id, hint) => EnterFine(c, o, s, id, hint);
    case Exit(id) => if Live(s, id) > 0 { ExitFine(o, s, id); }
    case Unload(id, force) => UnloadFine(o, s, id, false); FineIsKept(s, t);
    case Drop(id, force, raise) => DropFine(o, s, id, false, raise); FineIsKept(s, t);
    case UnloadIdle(force, inc) => UnloadInactiveFine(o, s, inc, s.order); FineIsKept(s, t);
    case CancelRequest(id, kill) =>
    case Idle => IdleFine(c, o, s, s.order); FineIsKept(s, t);
    case Tick(d) => TouchFine(s, "", "", s.now + d); FineIsKept(s, t);
    case Decay(id, stays, healthy) => DecayFine(s, id, stays, healthy); FineIsKept(s, t);
    case SelfLoad(id) => assert ExactAt(s, id);
  }

  ghost predicate UnforcedRun(c: Config, o: Oracle, s: State, ops: seq<Op>) {
    ops == [] ||
    (UnforcedRun(c, o, s, ops[..|ops| - 1]) && Unforced(c, o, Run(c, o, s, ops[..|ops| - 1]), ops[|ops| - 1]))
  }

  lemma {:induction false} UnforcedRunExact(c: Config, o: Oracle, s: State, ops: seq<Op>)
    requires Inv(s) && Exact(s) && UnforcedRun(c, o, s, ops)
    ensures Inv(Run(c, o, s, ops)) && Exact(Run(c, o, s, ops))
  {
    RunInv(c, o, s, ops);
    if ops != [] {
      UnforcedRunExact(c, o, s, ops[..|ops| - 1]);
      StepFine(c, o, Run(c, o, s, ops[..|ops| - 1]), ops[|ops| - 1]);
    }
  }

  lemma StartExact(model: ModelId, given: bool, loaded: bool, now: int)
    ensures Exact(Start(model, given, loaded, now))
  {
    var s := Start(model, given, loaded, now);
    forall i ensures ExactAt(s, i) {}
  }

  /** Each active count is the number of live borrows, and a borrowed model's engine is owned, loaded and healthy. */
  lemma CountsAreTheLiveBorrows(c: Config, o: Oracle, model: ModelId, given: bool, loaded: bool, now: int,
                                ops: seq<Op>, id: ModelId)
    requires UnforcedRun(c, o, Start(model, given, loaded, now), ops)
    ensures var s := Run(c, o, Start(model, given, loaded, now), ops);
            Count(s, id) == Live(s, id) && (Live(s, id) > 0 ==> IsLoaded(s, id) && s.engines[id].healthy)
  {
    StartInv(model, given, loaded, now);
    StartExact(model, given, loaded, now);
    UnforcedRunExact(c, o, Start(model, given, loaded, now), ops);
    assert ExactAt(Run(c, o, Start(model, given, loaded, now), ops), id);
  }

  /** No idle pass, switch, load, drop or plain unload touches the engine of a model in use. */
  lemma ModelsInUseAreLeftAlone(c: Config, o: Oracle, model: ModelId, given: bool, loaded: bool, now: int, ops: seq<Op>,
                                op: Op, id: ModelId)
    requires UnforcedRun(c, o, Start(model, given, loaded, now), ops)
    requires Unforced(c, o, Run(c, o, Start(model, given, loaded, now), ops), op)
    requires Live(Run(c, o, Start(model, given, loaded, now), ops), id) > 0
    requires Live(Step(c, o, Run(c, o, Start(model, given, loaded, now), ops), op), id) > 0
    ensures var s := Run(c, o, Start(model, given, loaded, now), ops);
            var t := Step(c, o, s, op);
            id in s.engines && id in t.engines && t.engines[id] == s.engines[id]
  {
    var s := Run(c, o, Start(model, given, loaded, now), ops);
    StartInv(model, given, loaded, now);
    StartExact(model, given, loaded, now);
    UnforcedRunExact(c, o, Start(model, given, loaded, now), ops);
    StepFine(c, o, s, op);
    assert KeptAt(s, Step(c, o, s, op), id);
  }

  /** In such runs no borrowed engine is ever found unloaded, so none loads itself, and at most one is loaded. */
  lemma NoEngineLoadsItself(c: Config, o: Oracle, model: ModelId, given: bool, loaded: bool, now: int, ops: seq<Op>,
                            id: ModelId)
    requires UnforcedRun(c, o, Start(model, given, loaded, now), ops)
    ensures var s := Run(c, o, Start(model, given, loaded, now), ops);
            !CanSelfLoad(s, id) && Step(c, o, s, SelfLoad(id)) == s && OneLoaded(s)
  {
    var s := Start(model, given, loaded, now);
    StartInv(model, given, loaded, now);
    StartExact(model, given, loaded, now);
    UnforcedRunExact(c, o, s, ops);
    assert ExactAt(Run(c, o, s, ops), id);
    UnforcedNeverCrowds(c, o, s, ops);
    UncrowdedIsOne(Run(c, o, s, ops));
  }

  lemma {:induction false} UnforcedNeverCrowds(c: Config, o: Oracle, s: State, ops: seq<Op>)
    requires Inv(s) && Exact(s) && UnforcedRun(c, o, s, ops) && !s.crowded
    ensures !Run(c, o, s, ops).crowded
  {
    if ops != [] {
      var before, last := ops[..|ops| - 1], ops[|ops| - 1];
      var r := Run(c, o, s, before);
      UnforcedNeverCrowds(c, o, s, before);
      UnforcedRunExact(c, o, s, before);
      if last.SelfLoad? { assert ExactAt(r, last.id); }
      CrowdsAStep(c, o, r, last);
    }
  }

  /** A rebuilding mark on a model nobody has borrowed means that its last drop failed to unload it. */
  lemma IdlePendingMeansFailedDrop(c: Config, o: Oracle, model: ModelId, given: bool, loaded: bool, now: int,
                                   ops: seq<Op>, id: ModelId)
    requires UnforcedRun(c, o, Start(model, given, loaded, now), ops)
    requires var s := Run(c, o, Start(model, given, loaded, now), ops); id in s.pending && Live(s, id) == 0
    ensures id in Run(c, o, Start(model, given, loaded, now), ops).dropFailed
  {
    StartInv(model, given, loaded, now);
    StartExact(model, given, loaded, now);
    UnforcedRunExact(c, o, Start(model, given, loaded, now), ops);
    assert ExactAt(Run(c, o, Start(model, given, loaded, now), ops), id);
  }

  /** The last borrower carries a deferred drop out if and only if the engine's unload returns; otherwise the engine
      stays owned and marked. */
  lemma LastBorrowerCarriesOutTheDrop(c: Config, o: Oracle, model: ModelId, given: bool, loaded: bool, now: int,
                                      ops: seq<Op>, id: ModelId)
    requires UnforcedRun(c, o, Start(model, given, loaded, now), ops)
    requires var s := Run(c, o, Start(model, given, loaded, now), ops); id in s.pending && Live(s, id) == 1
    ensures var s := Run(c, o, Start(model, given, loaded, now), ops);
            var t := Step(c, o, s, Exit(id));
            && (o(s.calls).Returns? <==> id !in t.engines)
            && (o(s.calls).Returns? <==> id !in t.pending)
            && (o(s.calls).Raises? ==> t.engines[id].serial == s.engines[id].serial)
  {
    StartInv(model, given, loaded, now);
    StartExact(model, given, loaded, now);
    UnforcedRunExact(c, o, Start(model, given, loaded, now), ops);
    assert ExactAt(Run(c, o, Start(model, given, loaded, now), ops), id);
  }

  /** Between the marking and that moment the mark is not lost: whatever runs, forced or not, it goes only with the
      engine it was put on, or when the manager is closed. */
  lemma PendingGoesOnlyWithItsEngine(c: Config, o: Oracle, model: ModelId, given: bool, loaded: bool, now: int,
                                     ops: seq<Op>, op: Op, id: ModelId)
    requires var s := Run(c, o, Start(model, given, loaded, now), ops);
             && id in s.pending && id !in Step(c, o, s, op).pending
    ensures var s := Run(c, o, Start(model, given, loaded, now), ops);
            var t := Step(c, o, s, op);
            t.closed || id !in t.engines || id !in s.engines || t.engines[id].serial != s.engines[id].serial
  {
    var s := Run(c, o, Start(model, given, loaded, now), ops);
    var t := Step(c, o, s, op);
    StartInv(model, given, loaded, now);
    RunInv(c, o, Start(model, given, loaded, now), ops);
    if !op.Begin? && !op.Release? && !op.Finish? {
      OrdinaryGood(c, o, s, op);
      assert EvolvesAt(s, Like(s, t), id) && SoundAt(s, id);
    }
  }

  /** The model stays borrowed in every state of the run. */
  ghost predicate InUse(c: Config, o: Oracle, s: State, ops: seq<Op>, id: ModelId) {
    Live(Run(c, o, s, ops), id) > 0 && (ops != [] ==> InUse(c, o, s, ops[..|ops| - 1], id))
  }

  /** The engine of `s` is still owned, unchanged, and marked. */
  ghost predicate StillMarked(s: State, t: State, id: ModelId) {
    id in t.pending && id in s.engines && id in t.engines && t.engines[id] == s.engines[id]
  }

  lemma MarkLastsAStep(c: Config, o: Oracle, s: State, op: Op, id: ModelId)
    requires Inv(s) && Exact(s) && Unforced(c, o, s, op) && id in s.pending && Live(s, id) > 0
    requires Live(Step(c, o, s, op), id) > 0
    ensures StillMarked(s, Step(c, o, s, op), id)
  {
    var t := Step(c, o, s, op);
    StepFine(c, o, s, op);
    OrdinaryGood(c, o, s, op);
    assert KeptAt(s, t, id) && EvolvesAt(s, Like(s, t), id) && SoundAt(s, id);
  }

  /** As long as the model is borrowed, the mark and the engine it is for stay. */
  lemma {:induction false} MarkLasts(c: Config, o: Oracle, s: State, ops: seq<Op>, id: ModelId)
    requires Inv(s) && Exact(s) && UnforcedRun(c, o, s, ops) && InUse(c, o, s, ops, id) && id in s.pending
    ensures StillMarked(s, Run(c, o, s, ops), id)
  {
    if ops == [] {
      assert ExactAt(s, id);
    } else {
      var before := ops[..|ops| - 1];
      MarkLasts(c, o, s, before, id);
      UnforcedRunExact(c, o, s, before);
      MarkLastsAStep(c, o, Run(c, o, s, before), ops[|ops| - 1], id);
    }
  }

  /** A drop refused because the model is in use only marks it. */
  lemma RefusedDropMarks(c: Config, o: Oracle, s: State, id: ModelId)
    requires Inv(s) && Exact(s) && Live(s, id) > 0
    ensures var t := Step(c, o, s, Drop(id, false, false));
            Inv(t) && Exact(t) && t == s.(pending := s.pending + {id})
  {
    assert ExactAt(s, id);
    StepInv(c, o, s, Drop(id, false, false));
    StepFine(c, o, s, Drop(id, false, false));
  }

  /** The whole life of a drop that was put off: refused because the model is in use, it leaves the engine as it is
      through any unforced operations while somebody has it; the last borrower to leave takes exactly that engine away
      if its unload returns, and otherwise leaves it owned and marked. */
  lemma DeferredDropIsCarriedOut(c: Config, o: Oracle, model: ModelId, given: bool, loaded: bool, now: int,
                                 first: seq<Op>, ops: seq<Op>, id: ModelId)
    requires var s := Run(c, o, Start(model, given, loaded, now), first);
             var marked := Step(c, o, s, Drop(id, false, false));
             && UnforcedRun(c, o, Start(model, given, loaded, now), first) && Live(s, id) > 0
             && UnforcedRun(c, o, marked, ops) && InUse(c, o, marked, ops, id) && Live(Run(c, o, marked, ops), id) == 1
    ensures var s := Run(c, o, Start(model, given, loaded, now), first);
            var last := Run(c, o, Step(c, o, s, Drop(id, false, false)), ops);
            var t := Step(c, o, last, Exit(id));
            && StillMarked(s, last, id)
            && (if o(last.calls).Returns? then id !in t.engines && id !in t.pending
                else id in t.engines && t.engines[id].serial == s.engines[id].serial && id in t.pending)
  {
    var s := Run(c, o, Start(model, given, loaded, now), first);
    var marked := Step(c, o, s, Drop(id, false, false));
    StartInv(model, given, loaded, now);
    StartExact(model, given, loaded, now);
    UnforcedRunExact(c, o, Start(model, given, loaded, now), first);
    RefusedDropMarks(c, o, s, id);
    MarkLasts(c, o, marked, ops, id);
    UnforcedRunExact(c, o, marked, ops);
    LastExit(o, Run(c, o, marked, ops), id);
  }

  lemma LastExit(o: Oracle, s: State, id: ModelId)
    requires Exact(s) && id in s.pending && Live(s, id) == 1
    ensures var t := BorrowExit(o, s, id);
            if o(s.calls).Returns? then id !in t.engines && id !in t.pending
            else id in s.engines && id in t.engines && t.engines[id].serial == s.engines[id].serial && id in t.pending
  {
    assert ExactAt(s, id);
  }
}

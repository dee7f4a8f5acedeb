/** The idle pass and the unloading of everything, exactly: which engines they unload, by which of their calls, and that
    they leave all else alone. */
module EngineManagerIdle {
  import opened EngineManager
  import opened EngineManagerProofs

  // ---------- each owned model is listed once ----------

  predicate Distinct(ids: seq<ModelId>) {
    forall i, j :: 0 <= i < j < |ids| ==> ids[i] != ids[j]
  }

  /** The dictionary's order lists the owned models, each once. */
  ghost predicate Listed(s: State) {
    Distinct(s.order) && forall id :: id in s.order <==> id in s.engines
  }

  lemma HeadIsDistinct(ids: seq<ModelId>)
    requires ids != []
    ensures Distinct(ids) <==> ids[0] !in ids[1..] && Distinct(ids[1..])
    ensures forall x :: x in ids <==> x == ids[0] || x in ids[1..]
  {
    var rest := ids[1..];
    assert forall i :: 0 <= i < |rest| ==> rest[i] == ids[i + 1];
    if Distinct(ids) {
      forall i, j | 0 <= i < j < |rest| ensures rest[i] != rest[j] { assert ids[i + 1] != ids[j + 1]; }
    }
    if ids[0] !in rest && Distinct(rest) {
      forall i, j | 0 <= i < j < |ids| ensures ids[i] != ids[j] {
        assert ids[j] == rest[j - 1];
        if i > 0 { assert ids[i] == rest[i - 1]; }
      }
    }
  }

  lemma {:induction false} WithoutIsDistinct(ids: seq<ModelId>, id: ModelId)
    requires Distinct(ids)
    ensures Distinct(Without(ids, id)) && forall x :: x in Without(ids, id) <==> x in ids && x != id
  {
    if ids != [] {
      var rest := ids[1..];
      HeadIsDistinct(ids);
      WithoutIsDistinct(rest, id);
      if ids[0] != id { HeadIsDistinct([ids[0]] + Without(rest, id)); }
    }
  }

  lemma {:induction false} WithoutAllIsDistinct(ids: seq<ModelId>, gone: set<ModelId>)
    requires Distinct(ids)
    ensures Distinct(WithoutAll(ids, gone)) && forall x :: x in WithoutAll(ids, gone) <==> x in ids && x !in gone
  {
    if ids != [] {
      var rest := ids[1..];
      HeadIsDistinct(ids);
      WithoutAllIsDistinct(rest, gone);
      if ids[0] !in gone { HeadIsDistinct([ids[0]] + WithoutAll(rest, gone)); }
    }
  }

  lemma DisownListed(s: State, id: ModelId)
    requires Listed(s)
    ensures Listed(Disown(s, id))
  {
    WithoutIsDistinct(s.order, id);
  }

  lemma OwnListed(s: State, id: ModelId, e: Engine)
    requires Listed(s)
    ensures Listed(Own(s, id, e))
  {
  }

  ghost predicate SameList(s: State, t: State) {
    t.engines.Keys == s.engines.Keys && t.order == s.order
  }

  lemma SameListed(s: State, t: State)
    requires Listed(s) && SameList(s, t)
    ensures Listed(t)
  {
    forall id ensures id in t.order <==> id in t.engines { assert id in s.engines.Keys <==> id in t.engines.Keys; }
  }

  lemma UnloadListed(o: Oracle, s: State, id: ModelId, force: bool)
    ensures SameList(s, UnloadModel(o, s, id, force).s)
  {
  }

  lemma DropListed(o: Oracle, s: State, id: ModelId, force: bool, raiseIfBusy: bool)
    requires Listed(s)
    ensures Listed(DropModel(o, s, id, force, raiseIfBusy).s)
  {
    if (Count(s, id) > 0 && !force) || id !in s.engines || !CallUnload(o, s, id).ok {
      SameListed(s, DropModel(o, s, id, force, raiseIfBusy).s);
    } else {
      DroppedListed(o, s, id, force, raiseIfBusy);
    }
  }

  lemma DroppedListed(o: Oracle, s: State, id: ModelId, force: bool, raiseIfBusy: bool)
    requires Listed(s) && (Count(s, id) > 0 ==> force) && id in s.engines && CallUnload(o, s, id).ok
    ensures Listed(DropModel(o, s, id, force, raiseIfBusy).s)
  {
    var u := CallUnload(o, s, id).s;
    SameListed(s, u);
    DisownListed(u, id);
    var v, t := Disown(u, id), DropModel(o, s, id, force, raiseIfBusy).s;
    assert t.engines == v.engines && t.order == v.order;
    SameListed(v, t);
  }

  lemma {:induction false} UnloadOthersListed(o: Oracle, s: State, target: ModelId, ids: seq<ModelId>)
    ensures SameList(s, UnloadOthers(o, s, target, ids).s)
    decreases ids
  {
    if ids != [] {
      if ids[0] == target || !IsLoaded(s, ids[0]) {
        UnloadOthersListed(o, s, target, ids[1..]);
      } else {
        var u := UnloadModel(o, s, ids[0], false);
        UnloadListed(o, s, ids[0], false);
        if u.ok { UnloadOthersListed(o, u.s, target, ids[1..]); }
      }
    }
  }

  lemma LoadListed(o: Oracle, s: State, id: ModelId)
    requires Listed(s) && id in s.engines
    ensures Listed(LoadEngine(o, s, id).s)
  {
    var t := LoadEngine(o, s, id).s;
    if o(s.calls).Returns? {
      SameListed(s, t);
    } else {
      var u := CallUnload(o, Called(s).(active := s.active[id := 0]), id).s;
      SameListed(s, u);
      DisownListed(u, id);
    }
  }

  lemma CreateListed(o: Oracle, s: State, id: ModelId, hint: string)
    requires Listed(s)
    ensures Listed(CreateEngine(o, s, id, hint).s)
  {
    var t := s.(calls := s.calls + 1, nextSerial := s.nextSerial + 1);
    SameListed(s, t);
    if o(s.calls).Returns? { OwnListed(t, id, Engine(s.nextSerial, hint, false, o(s.calls).healthy)); }
  }

  lemma CreateAndLoadListed(o: Oracle, s: State, id: ModelId, load: bool, hint: string, anew: bool)
    requires Listed(s) && (!anew ==> id in s.engines)
    ensures Listed(CreateAndLoad(o, s, id, load, hint, anew).s)
  {
    if anew { CreateListed(o, s, id, hint); }
    var c := if anew then CreateEngine(o, s, id, hint) else Res(s, true);
    if c.ok && load && !c.s.engines[id].loaded { LoadListed(o, c.s, id); }
  }

  lemma GetRestListed(o: Oracle, r: State, id: ModelId, load: bool, hint: string, needsLoad: bool)
    requires Listed(r)
    ensures Listed(GetRest(o, r, id, load, hint, needsLoad).s)
  {
    if NeedsReplacement(r, id, hint) {
      var d := DropModel(o, r, id, false, true).s;
      DropListed(o, r, id, false, true);
      UnloadOthersListed(o, d, id, d.order);
      var q := if load && !needsLoad then UnloadOthers(o, d, id, d.order) else Res(d, true);
      SameListed(d, q.s);
      CreateAndLoadListed(o, q.s, id, load, hint, true);
    } else if id in r.engines && !r.engines[id].healthy {
      DropListed(o, r, id, true, false);
      CreateAndLoadListed(o, DropModel(o, r, id, true, false).s, id, load, hint, true);
    } else {
      CreateAndLoadListed(o, r, id, load, hint, id !in r.engines);
    }
  }

  lemma GetListed(c: Config, o: Oracle, s: State, id: ModelId, load: bool, hint: string)
    requires Listed(s)
    ensures Listed(GetEngine(c, o, s, id, load, hint).s)
  {
    if id in c.enabled && !s.closed {
      var needsLoad := load && !IsLoaded(s, id);
      UnloadOthersListed(o, s, id, s.order);
      var r := if needsLoad then UnloadOthers(o, s, id, s.order) else Res(s, true);
      SameListed(s, r.s);
      GetRestListed(o, r.s, id, load, hint, needsLoad);
    }
  }

  lemma SwitchListed(c: Config, o: Oracle, s: State, id: ModelId, hint: string, unloadPrevious: bool, load: bool)
    requires Listed(s)
    ensures Listed(SwitchModel(c, o, s, id, hint, unloadPrevious, load).s)
  {
    if id in c.enabled && !s.closed {
      var u := MakeWay(o, Touch(s, id), id, unloadPrevious);
      UnloadListed(o, Touch(s, id), s.current, false);
      SameListed(s, u.s);
      SwitchRestListed(c, o, u, s.current, id, hint, load);
    }
  }

  lemma SwitchRestListed(c: Config, o: Oracle, u: Res, previous: ModelId, id: ModelId, hint: string, load: bool)
    requires Listed(u.s)
    ensures Listed(SwitchRest(c, o, u, previous, id, hint, load).s)
  {
    var g := GetEngine(c, o, u.s, id, load, hint);
    GetListed(c, o, u.s, id, load, hint);
    if g.ok { SameListed(g.s, g.s.(current := id)); } else { GetListed(c, o, g.s, previous, true, ""); }
  }

  lemma EnterListed(c: Config, o: Oracle, s: State, id: ModelId, hint: string)
    requires Listed(s)
    ensures Listed(BorrowEnter(c, o, s, id, hint).s)
  {
    if id in c.enabled && !s.closed {
      var t := Touch(s, id);
      SameListed(s, t);
      SwitchListed(c, o, t, id, hint, true, true);
      var w := SwitchForBorrow(c, o, t, id, hint);
      if w.ok {
        ObtainRestListed(c, o, w.s, id, hint);
        var h := ObtainRest(c, o, w.s, id, hint);
        SameListed(h.s, Register(h.s, id));
      }
    }
  }

  lemma ObtainRestListed(c: Config, o: Oracle, w: State, id: ModelId, hint: string)
    requires Listed(w)
    ensures Listed(ObtainRest(c, o, w, id, hint).s)
  {
    var g := GetEngine(c, o, w, id, true, hint).s;
    GetListed(c, o, w, id, true, hint);
    DropListed(o, g, id, true, false);
    GetListed(c, o, DropModel(o, g, id, true, false).s, id, true, hint);
  }

  lemma ExitListed(o: Oracle, s: State, id: ModelId)
    requires Listed(s) && Live(s, id) > 0
    ensures Listed(BorrowExit(o, s, id))
  {
    var t := Returned(s, id);
    SameListed(s, t);
    var v := t.(pending := t.pending - {id});
    SameListed(t, v);
    DropListed(o, v, id, true, false);
  }

  lemma {:induction false} UnloadInactiveListed(o: Oracle, s: State, force: bool, includeCurrent: bool,
                                                ids: seq<ModelId>)
    ensures SameList(s, UnloadInactive(o, s, force, includeCurrent, ids))
    decreases ids
  {
    if ids != [] {
      UnloadListed(o, s, ids[0], force);
      var t := if ids[0] == s.current && !includeCurrent then s else UnloadModel(o, s, ids[0], force).s;
      UnloadInactiveListed(o, t, force, includeCurrent, ids[1..]);
    }
  }

  lemma {:induction false} IdleListed(c: Config, o: Oracle, s: State, ids: seq<ModelId>)
    ensures SameList(s, IdlePass(c, o, s, ids))
    decreases ids
  {
    if ids != [] && c.idleTimeout > 0 {
      UnloadListed(o, s, ids[0], false);
      IdleListed(c, o, if IdleSkips(c, s, ids[0]) then s else UnloadModel(o, s, ids[0], false).s, ids[1..]);
    }
  }

  lemma ReleaseListed(o: Oracle, s: State, id: ModelId)
    requires Unloadable(s, id)
    ensures SameList(s, CloseRelease(o, s, id))
  {
    var owned := id in s.engines && s.engines[id].serial == s.job.snapshot[id];
    var u := if owned then CallUnload(o, s, id).s else Called(s);
    assert SameList(s, u);
  }

  lemma FinishListed(s: State)
    requires Listed(s) && s.job.Job?
    ensures Listed(CloseFinish(s))
  {
    WithoutAllIsDistinct(s.order, Releasable(s.engines, s.job));
  }

  lemma OutsideListed(c: Config, o: Oracle, s: State, op: Op)
    requires op.Begin? || op.Tick? || op.SelfLoad? || op.Decay?
    ensures SameList(s, Step(c, o, s, op))
  {
  }

  lemma StepListed(c: Config, o: Oracle, s: State, op: Op)
    requires Listed(s)
    ensures Listed(Step(c, o, s, op))
  {
    match op
    case Get(id, load, hint) => GetListed(c, o, s, id, load, hint);
    case Switch(id, hint, unloadPrevious, load) => SwitchListed(c, o, s, id, hint, unloadPrevious, load);
    case Enter(id, hint) => EnterListed(c, o, s, id, hint);
    case Exit(id) => if Live(s, id) > 0 { ExitListed(o, s, id); }
    case Unload(id, force) => UnloadListed(o, s, id, force); SameListed(s, Step(c, o, s, op));
    case Drop(id, force, raiseIfBusy) => DropListed(o, s, id, force, raiseIfBusy);
    case UnloadIdle(force, all) => UnloadInactiveListed(o, s, force, all, s.order); SameListed(s, Step(c, o, s, op));
    case CancelRequest(id, kill) => DropListed(o, s, id, true, false);
    case Idle => IdleListed(c, o, s, s.order); SameListed(s, Step(c, o, s, op));
    case Release(id) => if Unloadable(s, id) { ReleaseListed(o, s, id); SameListed(s, Step(c, o, s, op)); }
    case Finish => if s.job.Job? { FinishListed(s); }
    case _ => OutsideListed(c, o, s, op); SameListed(s, Step(c, o, s, op));
  }

  /** In every reachable state the dictionary lists each owned model once. */
  lemma {:induction false} RunListed(c: Config, o: Oracle, s: State, ops: seq<Op>)
    requires Listed(s)
    ensures Listed(Run(c, o, s, ops))
  {
    if ops != [] {
      RunListed(c, o, s, ops[..|ops| - 1]);
      StepListed(c, o, Run(c, o, s, ops[..|ops| - 1]), ops[|ops| - 1]);
    }
  }

  // ---------- what a pass over the models does ----------

  /** How many of these models are wanted. */
  function Among(wanted: set<ModelId>, ids: seq<ModelId>): nat {
    if ids == [] then 0 else (if ids[0] in wanted then 1 else 0) + Among(wanted, ids[1..])
  }

  function AfterUnload(outcome: Outcome, e: Engine): Engine {
    match outcome
    case Returns(_) => e.(loaded := false)
    case Raises(stays) => e.(loaded := e.loaded && stays)
  }

  /** What is left of a count after an unload. */
  function CountAfter(outcome: Outcome, force: bool, count: int): int {
    if force && outcome.Returns? then 0 else count
  }

  /** What the pass makes of the j-th model listed: the wanted ones are unloaded, by calls in the order of the list. */
  ghost predicate PassedAt(o: Oracle, s: State, t: State, ids: seq<ModelId>, wanted: set<ModelId>, force: bool, j: nat)
    requires j < |ids|
  {
    var id, outcome := ids[j], o(s.calls + Among(wanted, ids[..j]));
    && (id in s.engines ==>
          id in t.engines
          && t.engines[id] == if id in wanted then AfterUnload(outcome, s.engines[id]) else s.engines[id])
    && Count(t, id) == if id in wanted then CountAfter(outcome, force, Count(s, id)) else Count(s, id)
  }

  /** The two differ at most in their engines, in the counts and in the number of calls. */
  ghost predicate SameBooks(s: State, t: State) {
    t == s.(engines := t.engines, active := t.active, calls := t.calls) && t.engines.Keys == s.engines.Keys
  }

  ghost predicate Passed(o: Oracle, s: State, t: State, ids: seq<ModelId>, wanted: set<ModelId>, force: bool) {
    && SameBooks(s, t) && t.calls == s.calls + Among(wanted, ids)
    && (forall id :: id !in ids ==>
          Count(t, id) == Count(s, id) && (id in s.engines ==> t.engines[id] == s.engines[id]))
    && (forall j: nat :: j < |ids| ==> PassedAt(o, s, t, ids, wanted, force, j))
  }

  /** The two differ at most in this one model. */
  ghost predicate OnlyModel(s: State, t: State, id: ModelId) {
    && SameBooks(s, t)
    && forall i :: i != id ==> Count(t, i) == Count(s, i) && (i in s.engines ==> t.engines[i] == s.engines[i])
  }

  /** What is to become of the state by one model. */
  ghost predicate OneDone(o: Oracle, s: State, r: State, id: ModelId, wanted: set<ModelId>, force: bool) {
    && OnlyModel(s, r, id) && r.calls == s.calls + (if id in wanted then 1 else 0)
    && (id in s.engines ==>
          r.engines[id] == if id in wanted then AfterUnload(o(s.calls), s.engines[id]) else s.engines[id])
    && Count(r, id) == if id in wanted then CountAfter(o(s.calls), force, Count(s, id)) else Count(s, id)
  }

  lemma PassedRestAt(o: Oracle, s: State, r: State, t: State, ids: seq<ModelId>, wanted: set<ModelId>, force: bool,
                     j: nat)
    requires 0 < j < |ids| && Distinct(ids) && OneDone(o, s, r, ids[0], wanted, force)
    requires PassedAt(o, r, t, ids[1..], wanted, force, j - 1)
    ensures PassedAt(o, s, t, ids, wanted, force, j)
  {
    var id, rest, k := ids[0], ids[1..], j - 1;
    HeadIsDistinct(ids);
    assert rest[k] == ids[j] && ids[j] != id;
    assert ids[..j][0] == id && ids[..j][1..] == rest[..k];
    assert ids[j] in s.engines.Keys <==> ids[j] in r.engines.Keys;
  }

  lemma PassedHeadAt(o: Oracle, s: State, r: State, t: State, ids: seq<ModelId>, wanted: set<ModelId>, force: bool)
    requires ids != [] && ids[0] !in ids[1..] && OneDone(o, s, r, ids[0], wanted, force)
    requires Passed(o, r, t, ids[1..], wanted, force)
    ensures PassedAt(o, s, t, ids, wanted, force, 0)
  {
    assert ids[..0] == [] && (ids[0] in s.engines.Keys <==> ids[0] in r.engines.Keys);
  }

  lemma PassedFrame(o: Oracle, s: State, r: State, t: State, ids: seq<ModelId>, wanted: set<ModelId>, force: bool)
    requires ids != [] && Distinct(ids) && OneDone(o, s, r, ids[0], wanted, force)
    requires Passed(o, r, t, ids[1..], wanted, force)
    ensures SameBooks(s, t) && t.calls == s.calls + Among(wanted, ids)
    ensures forall id :: id !in ids ==>
              Count(t, id) == Count(s, id) && (id in s.engines ==> t.engines[id] == s.engines[id])
  {
    HeadIsDistinct(ids);
    forall id | id !in ids
      ensures Count(t, id) == Count(s, id) && (id in s.engines ==> t.engines[id] == s.engines[id])
    {
      assert id in s.engines.Keys <==> id in r.engines.Keys;
    }
  }

  lemma PassedMore(o: Oracle, s: State, r: State, t: State, ids: seq<ModelId>, wanted: set<ModelId>, force: bool)
    requires ids != [] && Distinct(ids) && OneDone(o, s, r, ids[0], wanted, force)
    requires Passed(o, r, t, ids[1..], wanted, force)
    ensures Passed(o, s, t, ids, wanted, force)
  {
    HeadIsDistinct(ids);
    PassedFrame(o, s, r, t, ids, wanted, force);
    forall j: nat | j < |ids| ensures PassedAt(o, s, t, ids, wanted, force, j) {
      if j > 0 {
        var k: nat := j - 1;
        assert PassedAt(o, r, t, ids[1..], wanted, force, k);
        PassedRestAt(o, s, r, t, ids, wanted, force, j);
      } else {
        PassedHeadAt(o, s, r, t, ids, wanted, force);
      }
    }
  }

  lemma UnloadIsDone(o: Oracle, s: State, id: ModelId, wanted: set<ModelId>, force: bool)
    requires id in wanted && id in s.engines && (force || Count(s, id) <= 0)
    ensures OneDone(o, s, UnloadModel(o, s, id, force).s, id, wanted, force)
  {
    var u := CallUnload(o, s, id);
    CallIsDone(o, s, id);
    if u.ok && force {
      var t := u.s.(active := u.s.active[id := 0]);
      assert UnloadModel(o, s, id, force).s == t;
      CountCleared(s, u.s, id);
    } else {
      assert UnloadModel(o, s, id, force).s == u.s;
    }
  }

  lemma CallIsDone(o: Oracle, s: State, id: ModelId)
    requires id in s.engines
    ensures var u := CallUnload(o, s, id);
            && OnlyModel(s, u.s, id) && u.s.calls == s.calls + 1 && u.s.active == s.active
            && u.s.engines[id] == AfterUnload(o(s.calls), s.engines[id]) && u.ok == o(s.calls).Returns?
  {
  }

  lemma CountCleared(s: State, u: State, id: ModelId)
    requires OnlyModel(s, u, id)
    ensures OnlyModel(s, u.(active := u.active[id := 0]), id)
  {
    var t := u.(active := u.active[id := 0]);
    forall i | i != id ensures Count(t, i) == Count(s, i) { assert Count(t, i) == Count(u, i); }
  }

  lemma NothingIsDone(o: Oracle, s: State, id: ModelId, wanted: set<ModelId>, force: bool)
    requires id !in wanted
    ensures OneDone(o, s, s, id, wanted, force)
  {
  }

  // ---------- the idle pass ----------

  function LastUse(s: State, id: ModelId): int {
    if id in s.lastUsed then s.lastUsed[id] else 0
  }

  /** The model is loaded, nobody has it, it has not been used for the timeout, and it is not the current one under
      protection. */
  predicate Due(c: Config, s: State, id: ModelId) {
    && c.idleTimeout > 0 && IsLoaded(s, id) && Count(s, id) == 0 && s.now >= LastUse(s, id) + c.idleTimeout
    && (c.unloadCurrent || id != s.current)
  }

  function DueModels(c: Config, s: State): set<ModelId> {
    set id | id in s.engines && Due(c, s, id)
  }

  lemma DueElsewhere(c: Config, s: State, t: State, id: ModelId, i: ModelId)
    requires OnlyModel(s, t, id) && i != id
    ensures Due(c, t, i) <==> Due(c, s, i)
  {
    assert i in s.engines.Keys <==> i in t.engines.Keys;
  }

  /** One model of the pass. */
  function PassOne(c: Config, o: Oracle, s: State, id: ModelId): State {
    if IdleSkips(c, s, id) then s else UnloadModel(o, s, id, false).s
  }

  lemma PassOneIs(c: Config, o: Oracle, s: State, id: ModelId, wanted: set<ModelId>)
    requires c.idleTimeout > 0 && Count(s, id) >= 0 && (id in wanted <==> Due(c, s, id))
    ensures OneDone(o, s, PassOne(c, o, s, id), id, wanted, false)
  {
    if id in wanted { UnloadIsDone(o, s, id, wanted, false); } else { NothingIsDone(o, s, id, wanted, false); }
  }

  lemma {:induction false} NoneAmong(ids: seq<ModelId>)
    ensures Among({}, ids) == 0
  {
    if ids != [] { NoneAmong(ids[1..]); }
  }

  lemma {:induction false} PassIs(c: Config, o: Oracle, s: State, ids: seq<ModelId>, wanted: set<ModelId>)
    requires Distinct(ids) && c.idleTimeout > 0 && (forall id :: Count(s, id) >= 0)
    requires forall id :: id in ids ==> (id in wanted <==> Due(c, s, id))
    ensures Passed(o, s, IdlePass(c, o, s, ids), ids, wanted, false)
    decreases ids
  {
    if ids != [] {
      var r := PassOne(c, o, s, ids[0]);
      HeadIsDistinct(ids);
      PassOneIs(c, o, s, ids[0], wanted);
      forall id ensures Count(r, id) >= 0 { assert Count(s, id) >= 0; }
      forall id | id in ids[1..] ensures id in wanted <==> Due(c, r, id) { DueElsewhere(c, s, r, ids[0], id); }
      PassIs(c, o, r, ids[1..], wanted);
      PassedMore(o, s, r, IdlePass(c, o, r, ids[1..]), ids, wanted, false);
    }
  }

  lemma NoPass(c: Config, o: Oracle, s: State, ids: seq<ModelId>)
    requires c.idleTimeout <= 0
    ensures DueModels(c, s) == {} && Passed(o, s, IdlePass(c, o, s, ids), ids, {}, false)
  {
    NoneAmong(ids);
    forall j: nat | j < |ids| ensures PassedAt(o, s, s, ids, {}, false, j) {}
  }

  /** In every reachable state the idle pass calls the unload of exactly the models that are due, in the order in which
      they are listed; each of these is unloaded if its call returned, every other engine is as it was, and so is
      everything else. */
  lemma IdlePassUnloadsExactlyTheIdle(c: Config, o: Oracle, model: ModelId, given: bool, loaded: bool, now: int,
                                      ops: seq<Op>)
    ensures var s := Run(c, o, Start(model, given, loaded, now), ops);
            Listed(s) && Passed(o, s, Step(c, o, s, Idle), s.order, DueModels(c, s), false)
  {
    var s := Run(c, o, Start(model, given, loaded, now), ops);
    StartInv(model, given, loaded, now);
    RunInv(c, o, Start(model, given, loaded, now), ops);
    RunListed(c, o, Start(model, given, loaded, now), ops);
    forall id ensures Count(s, id) >= 0 { assert SoundAt(s, id); }
    if c.idleTimeout > 0 {
      PassIs(c, o, s, s.order, DueModels(c, s));
    } else {
      NoPass(c, o, s, s.order);
    }
  }

  // ---------- unloading everything ----------

  /** The models that may be unloaded: all owned ones, except the current one if it is to stay, and those in use if
      there is no force. */
  function Unloadables(s: State, force: bool, includeCurrent: bool): set<ModelId> {
    set id | id in s.engines && (force || Count(s, id) == 0) && (includeCurrent || id != s.current)
  }

  /** One model of `unload_inactive`. */
  function UnloadOne(o: Oracle, s: State, force: bool, includeCurrent: bool, id: ModelId): State {
    if id == s.current && !includeCurrent then s else UnloadModel(o, s, id, force).s
  }

  lemma UnloadOneIs(o: Oracle, s: State, force: bool, includeCurrent: bool, id: ModelId, wanted: set<ModelId>)
    requires Count(s, id) >= 0 && (id in wanted <==> id in Unloadables(s, force, includeCurrent))
    ensures OneDone(o, s, UnloadOne(o, s, force, includeCurrent, id), id, wanted, force)
  {
    if id in wanted {
      UnloadIsDone(o, s, id, wanted, force);
    } else {
      assert UnloadOne(o, s, force, includeCurrent, id) == s;
      NothingIsDone(o, s, id, wanted, force);
    }
  }

  lemma UnloadableElsewhere(s: State, t: State, force: bool, includeCurrent: bool, id: ModelId, i: ModelId)
    requires OnlyModel(s, t, id) && i != id
    ensures i in Unloadables(t, force, includeCurrent) <==> i in Unloadables(s, force, includeCurrent)
  {
    assert i in s.engines.Keys <==> i in t.engines.Keys;
  }

  lemma {:induction false} UnloadAllIs(o: Oracle, s: State, force: bool, includeCurrent: bool, ids: seq<ModelId>,
                                       wanted: set<ModelId>)
    requires Distinct(ids) && (forall id :: Count(s, id) >= 0)
    requires forall id :: id in ids ==> (id in wanted <==> id in Unloadables(s, force, includeCurrent))
    ensures Passed(o, s, UnloadInactive(o, s, force, includeCurrent, ids), ids, wanted, force)
    decreases ids
  {
    if ids != [] {
      var r := UnloadOne(o, s, force, includeCurrent, ids[0]);
      HeadIsDistinct(ids);
      UnloadOneIs(o, s, force, includeCurrent, ids[0], wanted);
      forall id ensures Count(r, id) >= 0 { assert Count(s, id) >= 0; }
      forall id | id in ids[1..] ensures id in wanted <==> id in Unloadables(r, force, includeCurrent) {
        UnloadableElsewhere(s, r, force, includeCurrent, ids[0], id);
      }
      UnloadAllIs(o, r, force, includeCurrent, ids[1..], wanted);
      PassedMore(o, s, r, UnloadInactive(o, r, force, includeCurrent, ids[1..]), ids, wanted, force);
    }
  }

  /** In every reachable state `unload_inactive` calls the unload of exactly the owned models that are not in use, or of
      those in use as well if forced, except the current one if that is to stay; by force their counts are cleared. */
  lemma UnloadInactiveUnloadsExactly(c: Config, o: Oracle, model: ModelId, given: bool, loaded: bool, now: int,
                                     ops: seq<Op>, force: bool, includeCurrent: bool)
    ensures var s := Run(c, o, Start(model, given, loaded, now), ops);
            Passed(o, s, Step(c, o, s, UnloadIdle(force, includeCurrent)), s.order,
                   Unloadables(s, force, includeCurrent), force)
  {
    var s := Run(c, o, Start(model, given, loaded, now), ops);
    StartInv(model, given, loaded, now);
    RunInv(c, o, Start(model, given, loaded, now), ops);
    RunListed(c, o, Start(model, given, loaded, now), ops);
    forall id ensures Count(s, id) >= 0 { assert SoundAt(s, id); }
    UnloadAllIs(o, s, force, includeCurrent, s.order, Unloadables(s, force, includeCurrent));
  }
}

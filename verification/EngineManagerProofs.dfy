/** What the manager's operations keep over whole runs, whatever engine calls fail. */
module EngineManagerProofs {
  import opened EngineManager

  // ---------- what holds after every run ----------

  ghost predicate NotBothLoaded(s: State, i: ModelId, j: ModelId) {
    !s.crowded && IsLoaded(s, i) && IsLoaded(s, j) ==> i == j
  }

  /** No two owned engines are loaded, unless a borrowed one has loaded itself beside another. */
  ghost predicate AtMostOneLoaded(s: State) {
    forall i, j :: NotBothLoaded(s, i, j)
  }

  /** A count is never negative and never above the number of live borrows; owned engines are listed and numbered. */
  ghost predicate SoundAt(s: State, id: ModelId) {
    && 0 <= Count(s, id) <= Live(s, id)
    && (id in s.engines ==> id in s.order && s.engines[id].serial < s.nextSerial)
  }

  ghost predicate Base(s: State) {
    AtMostOneLoaded(s) && forall id :: SoundAt(s, id)
  }

  /** An engine a model has lost does not come back, a rebuilding mark goes only with the engine it was for, and a last
      use is forgotten only for a later one. */
  ghost predicate EvolvesAt(s: State, t: State, id: ModelId) {
    && (id in t.engines ==>
          (id in s.engines && s.engines[id].serial == t.engines[id].serial) || t.engines[id].serial >= s.nextSerial)
    && (id in s.pending && id !in t.pending ==> id !in t.engines || t.engines[id].serial >= s.nextSerial)
    && (s.closed && id in t.engines ==> id in s.engines && t.engines[id].serial == s.engines[id].serial)
    && (!s.closed && id in s.lastUsed ==>
          id in t.lastUsed && (t.lastUsed[id] == s.lastUsed[id] || t.lastUsed[id] >= s.now))
  }

  ghost predicate SameRun(s: State, t: State) {
    && s.nextSerial <= t.nextSerial && s.now <= t.now && s.live == t.live
    && t.closed == s.closed && t.job == s.job && t.released == s.released && t.crowded == s.crowded
  }

  ghost predicate Evolves(s: State, t: State) {
    SameRun(s, t) && forall id :: EvolvesAt(s, t, id)
  }

  ghost predicate Good(s: State, t: State) {
    Base(t) && Evolves(s, t)
  }

  lemma Then(s: State, t: State, u: State)
    requires Evolves(s, t) && Good(t, u)
    ensures Good(s, u)
  {
    forall id ensures EvolvesAt(s, u, id) {
      assert EvolvesAt(s, t, id) && EvolvesAt(t, u, id);
    }
  }

  ghost predicate NotNewlyLoaded(s: State, t: State, id: ModelId) {
    IsLoaded(t, id) ==> IsLoaded(s, id)
  }

  ghost predicate NoneLoaded(s: State, t: State) {
    forall id :: NotNewlyLoaded(s, t, id)
  }

  lemma NoneLoadedOn(s: State, t: State, u: State)
    requires NoneLoaded(s, t) && NoneLoaded(t, u)
    ensures NoneLoaded(s, u)
  {
    forall id ensures NotNewlyLoaded(s, u, id) {
      assert NotNewlyLoaded(s, t, id) && NotNewlyLoaded(t, u, id);
    }
  }

  /** Good, once the loaded engines are known to be among the old ones or alone. */
  lemma GoodByParts(s: State, t: State)
    requires Base(s) && NoneLoaded(s, t) && SameRun(s, t)
    requires forall id :: SoundAt(t, id) && EvolvesAt(s, t, id)
    ensures Good(s, t)
  {
    forall i, j ensures NotBothLoaded(t, i, j) {
      assert NotBothLoaded(s, i, j) && NotNewlyLoaded(s, t, i) && NotNewlyLoaded(s, t, j);
    }
  }

  lemma WithoutKeeps(ids: seq<ModelId>, id: ModelId)
    ensures forall x :: x in ids && x != id ==> x in Without(ids, id)
  {
  }

  lemma CallUnloadGood(o: Oracle, s: State, id: ModelId)
    requires Base(s) && id in s.engines
    ensures var u := CallUnload(o, s, id);
            && Good(s, u.s) && NoneLoaded(s, u.s) && (u.ok ==> !IsLoaded(u.s, id))
            && u.s.engines.Keys == s.engines.Keys && u.s.order == s.order
  {
    var e := s.engines[id];
    match o(s.calls)
    case Returns(_) => LessLoadedGood(s, id, e.(loaded := false), s.calls + 1);
    case Raises(stays) => LessLoadedGood(s, id, e.(loaded := e.loaded && stays), s.calls + 1);
  }

  /** The same engine, loaded only if it was. */
  lemma LessLoadedGood(s: State, id: ModelId, e: Engine, calls: nat)
    requires Base(s) && id in s.engines && e.serial == s.engines[id].serial && (e.loaded ==> s.engines[id].loaded)
    ensures var t := s.(calls := calls, engines := s.engines[id := e]); Good(s, t) && NoneLoaded(s, t)
  {
    var t := s.(calls := calls, engines := s.engines[id := e]);
    forall i ensures SoundAt(t, i) && EvolvesAt(s, t, i) && NotNewlyLoaded(s, t, i) { assert SoundAt(s, i); }
    GoodByParts(s, t);
  }

  lemma ZeroGood(s: State, id: ModelId)
    requires Base(s)
    ensures Good(s, s.(active := s.active[id := 0])) && NoneLoaded(s, s.(active := s.active[id := 0]))
  {
    var t := s.(active := s.active[id := 0]);
    forall i ensures SoundAt(t, i) && EvolvesAt(s, t, i) && NotNewlyLoaded(s, t, i) { assert SoundAt(s, i); }
    GoodByParts(s, t);
  }

  lemma DisownGood(s: State, id: ModelId, pending: set<ModelId>, dropFailed: set<ModelId>)
    requires Base(s) && s.pending - {id} <= pending
    ensures var t := Disown(s, id).(pending := pending, dropFailed := dropFailed); Good(s, t) && NoneLoaded(s, t)
  {
    var t := Disown(s, id).(pending := pending, dropFailed := dropFailed);
    WithoutKeeps(s.order, id);
    forall i ensures SoundAt(t, i) && EvolvesAt(s, t, i) && NotNewlyLoaded(s, t, i) { assert SoundAt(s, i); }
    GoodByParts(s, t);
  }

  lemma MarkGood(s: State, pending: set<ModelId>, dropFailed: set<ModelId>)
    requires Base(s) && forall id :: id in s.pending && id !in pending ==> id !in s.engines
    ensures var t := s.(pending := pending, dropFailed := dropFailed); Good(s, t) && NoneLoaded(s, t)
  {
    var t := s.(pending := pending, dropFailed := dropFailed);
    forall i ensures SoundAt(t, i) && EvolvesAt(s, t, i) && NotNewlyLoaded(s, t, i) { assert SoundAt(s, i); }
    GoodByParts(s, t);
  }

  lemma UnloadGood(o: Oracle, s: State, id: ModelId, force: bool)
    requires Base(s)
    ensures var u := UnloadModel(o, s, id, force);
            && Good(s, u.s) && NoneLoaded(s, u.s) && (u.ok ==> !IsLoaded(u.s, id))
            && u.s.engines.Keys == s.engines.Keys && u.s.order == s.order
  {
    if id in s.engines && !(Count(s, id) > 0 && !force) {
      CallUnloadGood(o, s, id);
      var u := CallUnload(o, s, id);
      if u.ok && force {
        ZeroGood(u.s, id);
        Then(s, u.s, u.s.(active := u.s.active[id := 0]));
        NoneLoadedOn(s, u.s, u.s.(active := u.s.active[id := 0]));
      }
    } else {
      MarkGood(s, s.pending, s.dropFailed);
    }
  }

  lemma DropGood(o: Oracle, s: State, id: ModelId, force: bool, raiseIfBusy: bool)
    requires Base(s)
    ensures var d := DropModel(o, s, id, force, raiseIfBusy); Good(s, d.s) && NoneLoaded(s, d.s)
  {
    if Count(s, id) > 0 && !force {
      MarkGood(s, if raiseIfBusy then s.pending else s.pending + {id}, s.dropFailed);
    } else if id !in s.engines {
      MarkGood(s, s.pending - {id}, s.dropFailed);
    } else {
      CallUnloadGood(o, s, id);
      var u := CallUnload(o, s, id);
      if !u.ok {
        var t := u.s.(pending := u.s.pending + {id}, dropFailed := u.s.dropFailed + {id});
        MarkGood(u.s, t.pending, t.dropFailed);
        Then(s, u.s, t);
        NoneLoadedOn(s, u.s, t);
      } else {
        var t := Disown(u.s, id).(pending := u.s.pending - {id}, dropFailed := u.s.dropFailed - {id});
        DisownGood(u.s, id, t.pending, t.dropFailed);
        Then(s, u.s, t);
        NoneLoadedOn(s, u.s, t);
        if force {
          ZeroGood(t, id);
          Then(s, t, t.(active := t.active[id := 0]));
          NoneLoadedOn(s, t, t.(active := t.active[id := 0]));
        }
      }
    }
  }

  ghost predicate MadeRoom(s: State, target: ModelId, ids: seq<ModelId>) {
    forall i :: i in ids && i != target ==> !IsLoaded(s, i)
  }

  /** When it succeeds, no other model it looked at is left loaded. */
  lemma {:induction false} UnloadOthersGood(o: Oracle, s: State, target: ModelId, ids: seq<ModelId>)
    requires Base(s)
    ensures var u := UnloadOthers(o, s, target, ids);
            && Good(s, u.s) && NoneLoaded(s, u.s) && (u.ok ==> MadeRoom(u.s, target, ids))
            && u.s.engines.Keys == s.engines.Keys && u.s.order == s.order
    decreases ids
  {
    var r := UnloadOthers(o, s, target, ids);
    if ids == [] || (ids[0] != target && IsLoaded(s, ids[0]) && Count(s, ids[0]) > 0) {
      MarkGood(s, s.pending, s.dropFailed);
    } else if ids[0] == target || !IsLoaded(s, ids[0]) {
      UnloadOthersGood(o, s, target, ids[1..]);
      if r.ok { MadeRoomMore(s, r.s, target, ids); }
    } else {
      UnloadGood(o, s, ids[0], false);
      var u := UnloadModel(o, s, ids[0], false);
      if u.ok {
        UnloadOthersGood(o, u.s, target, ids[1..]);
        Then(s, u.s, r.s);
        NoneLoadedOn(s, u.s, r.s);
        if r.ok { MadeRoomMore(u.s, r.s, target, ids); }
      }
    }
  }

  lemma MadeRoomMore(s: State, t: State, target: ModelId, ids: seq<ModelId>)
    requires ids != [] && MadeRoom(t, target, ids[1..]) && NoneLoaded(s, t)
    requires ids[0] == target || !IsLoaded(s, ids[0])
    ensures MadeRoom(t, target, ids)
  {
    assert NotNewlyLoaded(s, t, ids[0]);
    forall i | i in ids && i != target ensures !IsLoaded(t, i) {
      if i != ids[0] { assert i in ids[1..]; }
    }
  }

  ghost predicate OthersUnloaded(s: State, id: ModelId) {
    forall i :: !s.crowded && i != id ==> !IsLoaded(s, i)
  }

  lemma RoomForOne(s: State, id: ModelId)
    requires Base(s) && (IsLoaded(s, id) || MadeRoom(s, id, s.order))
    ensures OthersUnloaded(s, id)
  {
    forall i | !s.crowded && i != id ensures !IsLoaded(s, i) {
      assert NotBothLoaded(s, i, id) && SoundAt(s, i);
    }
  }

  lemma OthersStayUnloaded(s: State, t: State, id: ModelId)
    requires OthersUnloaded(s, id) && NoneLoaded(s, t) && s.crowded == t.crowded
    ensures OthersUnloaded(t, id)
  {
    forall i | !t.crowded && i != id ensures !IsLoaded(t, i) { assert NotNewlyLoaded(s, t, i); }
  }

  lemma CreateGood(o: Oracle, s: State, id: ModelId, hint: string)
    requires Base(s) && !s.closed
    ensures var r := CreateEngine(o, s, id, hint); Good(s, r.s) && NoneLoaded(s, r.s) && (r.ok ==> id in r.s.engines)
  {
    var t := CreateEngine(o, s, id, hint).s;
    forall i ensures SoundAt(t, i) && EvolvesAt(s, t, i) && NotNewlyLoaded(s, t, i) { assert SoundAt(s, i); }
    GoodByParts(s, t);
  }

  lemma LoadReturnsGood(o: Oracle, s: State, id: ModelId)
    requires Base(s) && id in s.engines && OthersUnloaded(s, id) && !s.closed && o(s.calls).Returns?
    ensures Good(s, LoadEngine(o, s, id).s) && IsLoaded(LoadEngine(o, s, id).s, id)
  {
    var t := LoadEngine(o, s, id).s;
    forall i ensures SoundAt(t, i) && EvolvesAt(s, t, i) { assert SoundAt(s, i); }
    forall i, j ensures NotBothLoaded(t, i, j) {
      assert !s.crowded && i != id ==> !IsLoaded(s, i);
      assert !s.crowded && j != id ==> !IsLoaded(s, j);
    }
  }

  lemma LoadGood(o: Oracle, s: State, id: ModelId)
    requires Base(s) && id in s.engines && OthersUnloaded(s, id) && !s.closed
    ensures var l := LoadEngine(o, s, id); Good(s, l.s) && (l.ok ==> IsLoaded(l.s, id))
  {
    if o(s.calls).Returns? {
      LoadReturnsGood(o, s, id);
    } else {
      ZeroGood(s, id);
      var z := s.(active := s.active[id := 0]);
      var t := z.(calls := s.calls + 1);
      forall i ensures SoundAt(t, i) && EvolvesAt(s, t, i) && NotNewlyLoaded(s, t, i) {
        assert SoundAt(z, i) && SoundAt(s, i);
      }
      GoodByParts(s, t);
      CallUnloadGood(o, t, id);
      var u := CallUnload(o, t, id).s;
      Then(s, t, u);
      DisownGood(u, id, u.pending, u.dropFailed);
      Then(s, u, Disown(u, id));
    }
  }

  /** A `get_engine` that returned left the engine owned and, if asked to, loaded. */
  ghost predicate Got(s: State, g: Res, id: ModelId, load: bool) {
    Good(s, g.s) && (g.ok ==> id in g.s.engines && (load ==> IsLoaded(g.s, id)))
  }

  lemma GotAfter(s: State, t: State, g: Res, id: ModelId, load: bool)
    requires Evolves(s, t) && Got(t, g, id, load)
    ensures Got(s, g, id, load)
  {
    Then(s, t, g.s);
  }

  lemma CreateAndLoadGood(o: Oracle, s: State, id: ModelId, load: bool, hint: string, anew: bool)
    requires Base(s) && !s.closed && (!anew ==> id in s.engines) && (load ==> OthersUnloaded(s, id))
    ensures Got(s, CreateAndLoad(o, s, id, load, hint, anew), id, load)
  {
    MarkGood(s, s.pending, s.dropFailed);
    if anew { CreateGood(o, s, id, hint); }
    var c := if anew then CreateEngine(o, s, id, hint) else Res(s, true);
    if c.ok && load && !c.s.engines[id].loaded {
      OthersStayUnloaded(s, c.s, id);
      LoadGood(o, c.s, id);
      Then(s, c.s, LoadEngine(o, c.s, id).s);
    }
  }

  lemma ReplaceGood(o: Oracle, r: State, id: ModelId, load: bool, hint: string, needsLoad: bool)
    requires Base(r) && !r.closed && (load ==> OthersUnloaded(r, id))
    requires NeedsReplacement(r, id, hint) && Count(r, id) <= 0
    ensures Got(r, GetRest(o, r, id, load, hint, needsLoad), id, load)
  {
    DropGood(o, r, id, false, true);
    var d := DropModel(o, r, id, false, true).s;
    var looks := load && !needsLoad;
    MarkGood(d, d.pending, d.dropFailed);
    if looks { UnloadOthersGood(o, d, id, d.order); }
    var q := if looks then UnloadOthers(o, d, id, d.order) else Res(d, true);
    Then(r, d, q.s);
    if q.ok {
      if load { OthersStayUnloaded(r, d, id); OthersStayUnloaded(d, q.s, id); }
      CreateAndLoadGood(o, q.s, id, load, hint, true);
      GotAfter(r, q.s, CreateAndLoad(o, q.s, id, load, hint, true), id, load);
    }
  }

  lemma GetRestGood(o: Oracle, r: State, id: ModelId, load: bool, hint: string, needsLoad: bool)
    requires Base(r) && !r.closed && (load ==> OthersUnloaded(r, id))
    ensures Got(r, GetRest(o, r, id, load, hint, needsLoad), id, load)
  {
    if NeedsReplacement(r, id, hint) {
      MarkGood(r, r.pending, r.dropFailed);
      if Count(r, id) <= 0 { ReplaceGood(o, r, id, load, hint, needsLoad); }
    } else if id in r.engines && !r.engines[id].healthy {
      DropGood(o, r, id, true, false);
      var d := DropModel(o, r, id, true, false).s;
      if load { OthersStayUnloaded(r, d, id); }
      CreateAndLoadGood(o, d, id, load, hint, true);
      GotAfter(r, d, CreateAndLoad(o, d, id, load, hint, true), id, load);
    } else {
      CreateAndLoadGood(o, r, id, load, hint, id !in r.engines);
    }
  }

  /** Whatever fails, `get_engine` leaves at most one owned engine loaded. */
  lemma GetGood(c: Config, o: Oracle, s: State, id: ModelId, load: bool, hint: string)
    requires Base(s)
    ensures Got(s, GetEngine(c, o, s, id, load, hint), id, load)
  {
    MarkGood(s, s.pending, s.dropFailed);
    if id in c.enabled && !s.closed {
      var needsLoad := load && !IsLoaded(s, id);
      if needsLoad { UnloadOthersGood(o, s, id, s.order); }
      var r := if needsLoad then UnloadOthers(o, s, id, s.order) else Res(s, true);
      if r.ok {
        if load { RoomForOne(r.s, id); }
        GetRestGood(o, r.s, id, load, hint, needsLoad);
        GotAfter(s, r.s, GetRest(o, r.s, id, load, hint, needsLoad), id, load);
      }
    }
  }

  lemma TouchGood(s: State, id: ModelId, current: ModelId)
    requires Base(s)
    ensures Good(s, Touch(s, id)) && Good(s, s.(current := current))
  {
    var t, u := Touch(s, id), s.(current := current);
    forall i ensures SoundAt(t, i) && EvolvesAt(s, t, i) && NotNewlyLoaded(s, t, i) { assert SoundAt(s, i); }
    GoodByParts(s, t);
    forall i ensures SoundAt(u, i) && EvolvesAt(s, u, i) && NotNewlyLoaded(s, u, i) { assert SoundAt(s, i); }
    GoodByParts(s, u);
  }

  lemma SwitchGood(c: Config, o: Oracle, s: State, id: ModelId, hint: string, unloadPrevious: bool, load: bool)
    requires Base(s)
    ensures Good(s, SwitchModel(c, o, s, id, hint, unloadPrevious, load).s)
  {
    MarkGood(s, s.pending, s.dropFailed);
    if id in c.enabled && !s.closed {
      TouchGood(s, id, s.current);
      var u := MakeWay(o, Touch(s, id), id, unloadPrevious);
      UnloadGood(o, Touch(s, id), s.current, false);
      MarkGood(Touch(s, id), s.pending, s.dropFailed);
      Then(s, Touch(s, id), u.s);
      SwitchRestGood(c, o, s, u, id, hint, load);
    }
  }

  lemma SwitchRestGood(c: Config, o: Oracle, s: State, u: Res, id: ModelId, hint: string, load: bool)
    requires Good(s, u.s)
    ensures Good(s, SwitchRest(c, o, u, s.current, id, hint, load).s)
  {
    GetGood(c, o, u.s, id, load, hint);
    var g := GetEngine(c, o, u.s, id, load, hint);
    Then(s, u.s, g.s);
    if g.ok {
      TouchGood(g.s, id, id);
      Then(s, g.s, g.s.(current := id));
    } else if u.ok {
      GetGood(c, o, g.s, s.current, true, "");
      Then(s, g.s, GetEngine(c, o, g.s, s.current, true, "").s);
    }
  }

  lemma ObtainGood(c: Config, o: Oracle, s: State, id: ModelId, hint: string)
    requires Base(s)
    ensures Got(s, Obtain(c, o, s, id, hint), id, true)
  {
    MarkGood(s, s.pending, s.dropFailed);
    if id in c.enabled && !s.closed {
      TouchGood(s, id, s.current);
      var t := Touch(s, id);
      MarkGood(t, t.pending, t.dropFailed);
      SwitchGood(c, o, t, id, hint, true, true);
      var w := SwitchForBorrow(c, o, t, id, hint);
      Then(s, t, w.s);
      if w.ok { ObtainRestGood(c, o, s, w.s, id, hint); }
    }
  }

  lemma ObtainRestGood(c: Config, o: Oracle, s: State, w: State, id: ModelId, hint: string)
    requires Good(s, w)
    ensures Got(s, ObtainRest(c, o, w, id, hint), id, true)
  {
    GetGood(c, o, w, id, true, hint);
    var g := GetEngine(c, o, w, id, true, hint);
    GotAfter(s, w, g, id, true);
    if g.ok && !g.s.engines[id].healthy {
      DropGood(o, g.s, id, true, false);
      var d := DropModel(o, g.s, id, true, false).s;
      Then(s, g.s, d);
      GetGood(c, o, d, id, true, hint);
      GotAfter(s, d, GetEngine(c, o, d, id, true, hint), id, true);
    }
  }

  /** What a step may do besides evolving: begin or end a borrow, or crowd the loaded engines. */
  ghost predicate GoodUpToHistory(s: State, t: State) {
    Base(t) && Evolves(s, Like(s, t))
  }

  ghost predicate GoodUpToLive(s: State, t: State) {
    GoodUpToHistory(s, t) && t.crowded == s.crowded
  }

  /** The later state, but for the history of borrows and crowding. */
  ghost function Like(s: State, t: State): State {
    t.(live := s.live, crowded := s.crowded)
  }

  lemma EnterGood(c: Config, o: Oracle, s: State, id: ModelId, hint: string)
    requires Base(s)
    ensures GoodUpToLive(s, BorrowEnter(c, o, s, id, hint).s)
  {
    ObtainGood(c, o, s, id, hint);
    var h := Obtain(c, o, s, id, hint);
    if h.ok { RegisterGood(s, h.s, id); } else { assert Like(s, h.s) == h.s; }
  }

  lemma RegisterGood(s: State, h: State, id: ModelId)
    requires Good(s, h)
    ensures GoodUpToLive(s, Register(h, id))
  {
    var t := Register(h, id);
    forall i ensures SoundAt(t, i) && EvolvesAt(s, Like(s, t), i) {
      assert SoundAt(h, i) && EvolvesAt(s, h, i);
    }
    forall i, j ensures NotBothLoaded(t, i, j) { assert NotBothLoaded(h, i, j); }
  }

  lemma ExitGood(o: Oracle, s: State, id: ModelId)
    requires Base(s) && Live(s, id) > 0
    ensures GoodUpToLive(s, BorrowExit(o, s, id))
  {
    var t := Returned(s, id);
    ReturnedGood(s, id);
    if !s.closed && Count(t, id) == 0 && id in s.pending {
      DropPendingIsDrop(o, t, id);
      DropGood(o, t, id, true, false);
      ThenUpToLive(s, t, DropModel(o, t, id, true, false).s);
    }
  }

  lemma ReturnedGood(s: State, id: ModelId)
    requires Base(s) && Live(s, id) > 0
    ensures GoodUpToLive(s, Returned(s, id))
  {
    var t := Returned(s, id);
    forall i ensures SoundAt(t, i) && EvolvesAt(s, Like(s, t), i) { assert SoundAt(s, i); }
    forall i, j ensures NotBothLoaded(t, i, j) { assert NotBothLoaded(s, i, j); }
  }

  /** Taking the mark off first makes no difference: a drop that fails puts it back. */
  lemma DropPendingIsDrop(o: Oracle, t: State, id: ModelId)
    requires id in t.pending
    ensures DropModel(o, t.(pending := t.pending - {id}), id, true, false) == DropModel(o, t, id, true, false)
  {
    var rest := t.pending - {id};
    assert rest - {id} == rest && rest + {id} == t.pending == t.pending + {id};
    if id in t.engines {
      CallUnloadApart(o, t, id, rest);
      DisownApart(CallUnload(o, t, id).s, id, rest);
    }
  }

  /** Unloading and disowning have nothing to do with the marks. */
  lemma CallUnloadApart(o: Oracle, t: State, id: ModelId, pending: set<ModelId>)
    requires id in t.engines
    ensures var u := CallUnload(o, t, id);
            CallUnload(o, t.(pending := pending), id) == Res(u.s.(pending := pending), u.ok)
            && u.s.pending == t.pending
  {
  }

  lemma DisownApart(t: State, id: ModelId, pending: set<ModelId>)
    ensures Disown(t.(pending := pending), id) == Disown(t, id).(pending := pending)
  {
  }

  lemma ThenUpToLive(s: State, t: State, u: State)
    requires GoodUpToLive(s, t) && Good(t, u)
    ensures GoodUpToLive(s, u)
  {
    var t', u' := Like(s, t), Like(s, u);
    forall id ensures EvolvesAt(s, u', id) {
      assert EvolvesAt(s, t', id) && EvolvesAt(t, u, id);
    }
  }

  lemma {:induction false} IdleGood(c: Config, o: Oracle, s: State, ids: seq<ModelId>)
    requires Base(s)
    ensures Good(s, IdlePass(c, o, s, ids))
    decreases ids
  {
    MarkGood(s, s.pending, s.dropFailed);
    if ids != [] && c.idleTimeout > 0 {
      UnloadGood(o, s, ids[0], false);
      var t := if IdleSkips(c, s, ids[0]) then s else UnloadModel(o, s, ids[0], false).s;
      IdleGood(c, o, t, ids[1..]);
      Then(s, t, IdlePass(c, o, t, ids[1..]));
    }
  }

  lemma {:induction false} UnloadInactiveGood(o: Oracle, s: State, force: bool, includeCurrent: bool, ids: seq<ModelId>)
    requires Base(s)
    ensures Good(s, UnloadInactive(o, s, force, includeCurrent, ids))
    decreases ids
  {
    MarkGood(s, s.pending, s.dropFailed);
    if ids != [] {
      UnloadGood(o, s, ids[0], force);
      var t := if ids[0] == s.current && !includeCurrent then s else UnloadModel(o, s, ids[0], force).s;
      UnloadInactiveGood(o, t, force, includeCurrent, ids[1..]);
      Then(s, t, UnloadInactive(o, t, force, includeCurrent, ids[1..]));
    }
  }

  // ---------- closing ----------

  /** Once closed, a manager stays closed and never owns a model that it did not own. */
  ghost predicate ClosedFor(s: State, t: State) {
    && (s.closed ==> t.closed && t.engines.Keys <= s.engines.Keys)
    && (s.released ==> t.released)
    && s.nextSerial <= t.nextSerial
  }

  /** After `close_all` has returned true, nothing is owned. */
  ghost predicate ReleasedInv(s: State) {
    s.released ==> s.closed && s.engines == map[]
  }

  lemma EvolvesClosed(s: State, t: State)
    requires GoodUpToHistory(s, t) && ReleasedInv(s)
    ensures ClosedFor(s, t) && ReleasedInv(t)
  {
    forall id | id in t.engines && s.closed ensures id in s.engines {
      assert EvolvesAt(s, Like(s, t), id);
    }
  }

  lemma WithoutAllKeeps(ids: seq<ModelId>, gone: set<ModelId>)
    ensures forall x :: x in ids && x !in gone ==> x in WithoutAll(ids, gone)
  {
  }

  ghost predicate CloseKeeps(s: State, t: State) {
    Base(t) && ClosedFor(s, t) && ReleasedInv(t)
  }

  lemma BeginGood(s: State)
    requires Base(s) && ReleasedInv(s) && s.job.NoJob?
    ensures CloseKeeps(s, CloseBegin(s))
  {
    var t := CloseBegin(s);
    forall i ensures SoundAt(t, i) { assert SoundAt(s, i); }
    forall i, j ensures NotBothLoaded(t, i, j) { assert NotBothLoaded(s, i, j); }
  }

  lemma ReleaseGood(o: Oracle, s: State, id: ModelId)
    requires Base(s) && ReleasedInv(s) && s.job.Job? && id in s.job.snapshot.Keys - s.job.succeeded - s.job.failed
    ensures CloseKeeps(s, CloseRelease(o, s, id))
  {
    var owned := id in s.engines && s.engines[id].serial == s.job.snapshot[id];
    var u := if owned then CallUnload(o, s, id).s else Called(s);
    if owned { CallUnloadGood(o, s, id); } else { CalledGood(s); }
    UpToLive(s, u);
    EvolvesClosed(s, u);
    JobIsBooks(s, u, CloseRelease(o, s, id).job);
  }

  lemma CalledGood(s: State)
    requires Base(s)
    ensures Good(s, Called(s))
  {
    var t := Called(s);
    forall i ensures SoundAt(t, i) && EvolvesAt(s, t, i) && NotNewlyLoaded(s, t, i) { assert SoundAt(s, i); }
    GoodByParts(s, t);
  }

  lemma JobIsBooks(s: State, u: State, job: Job)
    requires CloseKeeps(s, u)
    ensures CloseKeeps(s, u.(job := job))
  {
    var t := u.(job := job);
    forall i ensures SoundAt(t, i) { assert SoundAt(u, i); }
    forall i, j ensures NotBothLoaded(t, i, j) { assert NotBothLoaded(u, i, j); }
  }

  lemma FinishGood(s: State)
    requires Base(s) && ReleasedInv(s) && s.job.Job? && s.closed
    ensures CloseKeeps(s, CloseFinish(s))
  {
    var t := CloseFinish(s);
    WithoutAllKeeps(s.order, Releasable(s.engines, s.job));
    forall i ensures SoundAt(t, i) && NotNewlyLoaded(s, t, i) { assert SoundAt(s, i); }
    forall i, j ensures NotBothLoaded(t, i, j) {
      assert NotBothLoaded(s, i, j) && NotNewlyLoaded(s, t, i) && NotNewlyLoaded(s, t, j);
    }
  }

  lemma DecayGood(s: State, id: ModelId, staysLoaded: bool, healthy: bool)
    requires Base(s)
    ensures Good(s, DecayStep(s, id, staysLoaded, healthy))
  {
    if id in s.engines {
      var e := s.engines[id];
      LessLoadedGood(s, id, e.(loaded := e.loaded && staysLoaded, healthy := healthy), s.calls);
    } else {
      MarkGood(s, s.pending, s.dropFailed);
    }
  }

  lemma TickGood(s: State, now: int)
    requires Base(s) && s.now <= now
    ensures Good(s, s.(now := now))
  {
    var t := s.(now := now);
    forall i ensures SoundAt(t, i) && EvolvesAt(s, t, i) && NotNewlyLoaded(s, t, i) { assert SoundAt(s, i); }
    GoodByParts(s, t);
  }

  lemma SelfLoadGood(o: Oracle, s: State, id: ModelId)
    requires Base(s) && CanSelfLoad(s, id)
    ensures GoodUpToHistory(s, SelfLoadStep(o, s, id))
  {
    var t := SelfLoadStep(o, s, id);
    forall i ensures SoundAt(t, i) && EvolvesAt(s, Like(s, t), i) { assert SoundAt(s, i); }
    forall i, j ensures NotBothLoaded(t, i, j) { assert NotBothLoaded(s, i, j); }
  }

  lemma OutsideGood(s: State, op: Op, c: Config, o: Oracle)
    requires Base(s) && (op.Tick? || op.Decay?)
    ensures Good(s, Step(c, o, s, op))
  {
    if op.Tick? { TickGood(s, s.now + op.d); } else { DecayGood(s, op.id, op.staysLoaded, op.healthy); }
  }

  ghost predicate Inv(s: State) {
    Base(s) && ReleasedInv(s) && (s.job.Job? ==> s.closed)
  }

  lemma UpToLive(s: State, t: State)
    requires Good(s, t)
    ensures GoodUpToLive(s, t)
  {
    assert Like(s, t) == t;
  }

  /** Every operation but the three parts of `close_all`. */
  lemma OrdinaryGood(c: Config, o: Oracle, s: State, op: Op)
    requires Base(s) && !op.Begin? && !op.Release? && !op.Finish?
    ensures GoodUpToHistory(s, Step(c, o, s, op))
    ensures !op.SelfLoad? ==> Step(c, o, s, op).crowded == s.crowded
  {
    MarkGood(s, s.pending, s.dropFailed);
    UpToLive(s, s);
    match op
    case Get(id, load, hint) => GetGood(c, o, s, id, load, hint); UpToLive(s, Step(c, o, s, op));
    case Switch(id, hint, up, load) => SwitchGood(c, o, s, id, hint, up, load); UpToLive(s, Step(c, o, s, op));
    case Enter(id, hint) => EnterGood(c, o, s, id, hint);
    case Exit(id) => if Live(s, id) > 0 { ExitGood(o, s, id); }
    case Unload(id, force) => UnloadGood(o, s, id, force); UpToLive(s, Step(c, o, s, op));
    case Drop(id, force, raise) => DropGood(o, s, id, force, raise); UpToLive(s, Step(c, o, s, op));
    case UnloadIdle(force, inc) => UnloadInactiveGood(o, s, force, inc, s.order); UpToLive(s, Step(c, o, s, op));
    case CancelRequest(id, kill) => DropGood(o, s, id, true, false); UpToLive(s, Step(c, o, s, op));
    case Idle => IdleGood(c, o, s, s.order); UpToLive(s, Step(c, o, s, op));
    case Tick(_) => OutsideGood(s, op, c, o); UpToLive(s, Step(c, o, s, op));
    case Decay(_, _, _) => OutsideGood(s, op, c, o); UpToLive(s, Step(c, o, s, op));
    case SelfLoad(id) => if CanSelfLoad(s, id) { SelfLoadGood(o, s, id); }
  }

  lemma StepInv(c: Config, o: Oracle, s: State, op: Op)
    requires Inv(s)
    ensures Inv(Step(c, o, s, op)) && ClosedFor(s, Step(c, o, s, op))
  {
    match op
    case Begin => if s.job.NoJob? { BeginGood(s); }
    case Release(id) =>
      if s.job.Job? && id in s.job.snapshot.Keys - s.job.succeeded - s.job.failed { ReleaseGood(o, s, id); }
    case Finish => if s.job.Job? { FinishGood(s); }
    case _ => OrdinaryGood(c, o, s, op); EvolvesClosed(s, Step(c, o, s, op));
  }

  lemma {:induction false} RunInv(c: Config, o: Oracle, s: State, ops: seq<Op>)
    requires Inv(s)
    ensures Inv(Run(c, o, s, ops)) && ClosedFor(s, Run(c, o, s, ops))
  {
    if ops == [] {
    } else {
      RunInv(c, o, s, ops[..|ops| - 1]);
      StepInv(c, o, Run(c, o, s, ops[..|ops| - 1]), ops[|ops| - 1]);
    }
  }

  lemma StartInv(model: ModelId, given: bool, loaded: bool, now: int)
    ensures Inv(Start(model, given, loaded, now))
  {
    var s := Start(model, given, loaded, now);
    forall i ensures SoundAt(s, i) {}
    forall i, j ensures NotBothLoaded(s, i, j) {}
  }

  // ---------- when at most one engine is loaded ----------

  /** In this state the operation makes a borrowed engine load itself beside another loaded one. */
  predicate Crowds(o: Oracle, s: State, op: Op) {
    op.SelfLoad? && CanSelfLoad(s, op.id) && OtherLoaded(s, op.id) && o(s.calls).Returns?
  }

  predicate CrowdsAt(c: Config, o: Oracle, s: State, ops: seq<Op>, k: nat) {
    k < |ops| && Crowds(o, Run(c, o, s, ops[..k]), ops[k])
  }

  ghost predicate NeverCrowded(c: Config, o: Oracle, s: State, ops: seq<Op>) {
    forall k: nat :: !CrowdsAt(c, o, s, ops, k)
  }

  lemma CrowdsAtPrefix(c: Config, o: Oracle, s: State, ops: seq<Op>, m: nat, k: nat)
    requires m <= |ops|
    ensures CrowdsAt(c, o, s, ops[..m], k) <==> k < m && CrowdsAt(c, o, s, ops, k)
  {
    if k < m { assert ops[..m][..k] == ops[..k]; }
  }

  ghost predicate OneLoaded(s: State) {
    forall i, j :: IsLoaded(s, i) && IsLoaded(s, j) ==> i == j
  }

  ghost predicate AlwaysOneLoaded(c: Config, o: Oracle, s: State, ops: seq<Op>) {
    forall k: nat :: k <= |ops| ==> OneLoaded(Run(c, o, s, ops[..k]))
  }

  lemma CrowdingShows(o: Oracle, s: State, op: Op)
    requires Crowds(o, s, op)
    ensures !OneLoaded(SelfLoadStep(o, s, op.id)) && SelfLoadStep(o, s, op.id).crowded
  {
    var t := SelfLoadStep(o, s, op.id);
    var i :| i in s.engines && i != op.id && s.engines[i].loaded;
    assert IsLoaded(t, i) && IsLoaded(t, op.id);
  }

  lemma CrowdsAStep(c: Config, o: Oracle, s: State, op: Op)
    requires Inv(s)
    ensures Step(c, o, s, op).crowded <==> s.crowded || Crowds(o, s, op)
    ensures Crowds(o, s, op) ==> !OneLoaded(Step(c, o, s, op))
  {
    if Crowds(o, s, op) {
      CrowdingShows(o, s, op);
    } else if !op.SelfLoad? && !op.Begin? && !op.Release? && !op.Finish? {
      OrdinaryGood(c, o, s, op);
    }
  }

  lemma NeverCrowdedBefore(c: Config, o: Oracle, s: State, ops: seq<Op>, n: nat)
    requires |ops| == n + 1
    ensures NeverCrowded(c, o, s, ops) <==> NeverCrowded(c, o, s, ops[..n]) && !CrowdsAt(c, o, s, ops, n)
  {
    var before := ops[..n];
    forall k: nat ensures CrowdsAt(c, o, s, before, k) <==> k < n && CrowdsAt(c, o, s, ops, k) {
      CrowdsAtPrefix(c, o, s, ops, n, k);
    }
    if NeverCrowded(c, o, s, before) && !CrowdsAt(c, o, s, ops, n) {
      forall k: nat ensures !CrowdsAt(c, o, s, ops, k) { assert !CrowdsAt(c, o, s, before, k); }
    }
  }

  lemma {:induction false} CrowdedRun(c: Config, o: Oracle, s: State, ops: seq<Op>)
    requires Inv(s) && !s.crowded
    ensures Run(c, o, s, ops).crowded <==> !NeverCrowded(c, o, s, ops)
  {
    if ops != [] {
      var before := ops[..|ops| - 1];
      CrowdedRun(c, o, s, before);
      RunInv(c, o, s, before);
      CrowdsAStep(c, o, Run(c, o, s, before), ops[|ops| - 1]);
      NeverCrowdedBefore(c, o, s, ops, |ops| - 1);
    } else {
      assert NeverCrowded(c, o, s, ops);
    }
  }

  lemma UncrowdedIsOne(s: State)
    requires Base(s) && !s.crowded
    ensures OneLoaded(s)
  {
    forall i, j | IsLoaded(s, i) && IsLoaded(s, j) ensures i == j { assert NotBothLoaded(s, i, j); }
  }

  lemma NeverCrowdedSoFar(c: Config, o: Oracle, s: State, ops: seq<Op>, k: nat)
    requires Inv(s) && !s.crowded && NeverCrowded(c, o, s, ops) && k <= |ops|
    ensures OneLoaded(Run(c, o, s, ops[..k]))
  {
    var some := ops[..k];
    forall m: nat ensures !CrowdsAt(c, o, s, some, m) { CrowdsAtPrefix(c, o, s, ops, k, m); }
    RunInv(c, o, s, some);
    CrowdedRun(c, o, s, some);
    UncrowdedIsOne(Run(c, o, s, some));
  }

  lemma CrowdedThen(c: Config, o: Oracle, s: State, ops: seq<Op>, k: nat)
    requires Inv(s) && CrowdsAt(c, o, s, ops, k)
    ensures !OneLoaded(Run(c, o, s, ops[..k + 1]))
  {
    var some := ops[..k + 1];
    RunInv(c, o, s, ops[..k]);
    CrowdsAStep(c, o, Run(c, o, s, ops[..k]), ops[k]);
    assert some[..k] == ops[..k] && some[k] == ops[k];
  }

  /** However many engine calls fail, at most one owned engine is loaded in every state of a run, if and only if no
      borrowed engine loads itself while another owned engine is loaded. */
  lemma AtMostOneModelIsLoaded(c: Config, o: Oracle, model: ModelId, given: bool, loaded: bool, now: int, ops: seq<Op>)
    ensures var s := Start(model, given, loaded, now); AlwaysOneLoaded(c, o, s, ops) <==> NeverCrowded(c, o, s, ops)
  {
    var s := Start(model, given, loaded, now);
    StartInv(model, given, loaded, now);
    if NeverCrowded(c, o, s, ops) {
      forall k: nat | k <= |ops| ensures OneLoaded(Run(c, o, s, ops[..k])) { NeverCrowdedSoFar(c, o, s, ops, k); }
    } else {
      var k: nat :| CrowdsAt(c, o, s, ops, k);
      CrowdedThen(c, o, s, ops, k);
      var m: nat := k + 1;
      assert !OneLoaded(Run(c, o, s, ops[..m]));
    }
  }

  // ---------- an instance with two loaded engines ----------

  lemma RunThen(c: Config, o: Oracle, s: State, ops: seq<Op>, op: Op)
    ensures Run(c, o, s, ops + [op]) == Step(c, o, Run(c, o, s, ops), op)
  {
    assert (ops + [op])[..|ops|] == ops;
  }

  /** With no other engine loaded, a model without an engine gets one. */
  lemma GetsAnother(c: Config, o: Oracle, s: State, id: ModelId)
    requires id in c.enabled && !s.closed && id !in s.engines
    requires forall i :: i in s.order ==> !IsLoaded(s, i)
    requires o(s.calls) == Returns(true) && o(s.calls + 1) == Returns(true)
    ensures var g := GetEngine(c, o, s, id, true, "");
            && g.ok && g.s.engines == s.engines[id := Engine(s.nextSerial, "", true, true)]
            && g.s.order == s.order + [id] && g.s.calls == s.calls + 2 && g.s.live == s.live
            && g.s.closed == s.closed && g.s.active == s.active
  {
    NobodyToUnload(o, s, id, s.order);
    var e := CreateEngine(o, s, id, "");
    assert LoadEngine(o, e.s, id) == Res(Loaded(Called(e.s), id, true), true);
  }

  lemma {:induction false} NobodyToUnload(o: Oracle, s: State, id: ModelId, ids: seq<ModelId>)
    requires forall i :: i in ids ==> !IsLoaded(s, i)
    ensures UnloadOthers(o, s, id, ids) == Res(s, true)
    decreases ids
  {
    if ids != [] { NobodyToUnload(o, s, id, ids[1..]); }
  }

  ghost predicate AllReturn(c: Config, o: Oracle) {
    c.enabled == {"a", "b"} && forall n :: o(n) == Returns(true)
  }

  lemma BorrowedAlone(c: Config, o: Oracle) returns (ops: seq<Op>)
    requires AllReturn(c, o)
    ensures ops == [Enter("a", "")]
    ensures var s := Run(c, o, Start("a", false, false, 0), ops);
            && s.engines == map["a" := Engine(1, "", true, true)] && s.order == ["a"] && !s.closed && Live(s, "a") == 1
  {
    var s := Start("a", false, false, 0);
    RunThen(c, o, s, [], Enter("a", ""));
    GetsAnother(c, o, Touch(s, "a"), "a");
    ops := [] + [Enter("a", "")];
  }

  lemma BrokenDown(c: Config, o: Oracle) returns (ops: seq<Op>)
    requires AllReturn(c, o)
    ensures ops == [Enter("a", ""), Decay("a", false, true)]
    ensures var s := Run(c, o, Start("a", false, false, 0), ops);
            && s.engines == map["a" := Engine(1, "", false, true)] && s.order == ["a"] && !s.closed && Live(s, "a") == 1
  {
    var before := BorrowedAlone(c, o);
    RunThen(c, o, Start("a", false, false, 0), before, Decay("a", false, true));
    ops := before + [Decay("a", false, true)];
  }

  lemma AnotherLoaded(c: Config, o: Oracle) returns (ops: seq<Op>)
    requires AllReturn(c, o)
    ensures ops == [Enter("a", ""), Decay("a", false, true), Get("b", true, "")]
    ensures var s := Run(c, o, Start("a", false, false, 0), ops);
            IsLoaded(s, "b") && CanSelfLoad(s, "a")
  {
    var before := BrokenDown(c, o);
    var s := Run(c, o, Start("a", false, false, 0), before);
    GetsAnother(c, o, s, "b");
    RunThen(c, o, Start("a", false, false, 0), before, Get("b", true, ""));
    ops := before + [Get("b", true, "")];
  }

  /** A borrowed engine breaks down, another model is loaded, and then the borrowed one loads itself. */
  lemma TwoModelsCanBeLoaded(c: Config, o: Oracle) returns (ops: seq<Op>)
    requires AllReturn(c, o)
    ensures ops == [Enter("a", ""), Decay("a", false, true), Get("b", true, ""), SelfLoad("a")]
    ensures var s := Run(c, o, Start("a", false, false, 0), ops); IsLoaded(s, "a") && IsLoaded(s, "b")
  {
    var before := AnotherLoaded(c, o);
    RunThen(c, o, Start("a", false, false, 0), before, SelfLoad("a"));
    ops := before + [SelfLoad("a")];
  }

  /** With forced operations allowed, an active count is never negative and never above the live borrows. */
  lemma CountsStayBounded(c: Config, o: Oracle, model: ModelId, given: bool, loaded: bool, now: int, ops: seq<Op>,
                          id: ModelId)
    ensures var s := Run(c, o, Start(model, given, loaded, now), ops); 0 <= Count(s, id) <= Live(s, id)
  {
    StartInv(model, given, loaded, now);
    RunInv(c, o, Start(model, given, loaded, now), ops);
    assert SoundAt(Run(c, o, Start(model, given, loaded, now), ops), id);
  }

  lemma {:induction false} RunAppend(c: Config, o: Oracle, s: State, first: seq<Op>, more: seq<Op>)
    ensures Run(c, o, s, first + more) == Run(c, o, Run(c, o, s, first), more)
  {
    if more == [] {
      assert first + more == first;
    } else {
      var ops := first + more;
      assert ops[..|ops| - 1] == first + more[..|more| - 1];
      RunAppend(c, o, s, first, more[..|more| - 1]);
    }
  }

  /** Once `close_all` has returned true, no later operation makes the manager own an engine again. */
  lemma ReleasedForGood(c: Config, o: Oracle, model: ModelId, given: bool, loaded: bool, now: int, first: seq<Op>,
                        more: seq<Op>)
    requires Run(c, o, Start(model, given, loaded, now), first).released
    ensures Run(c, o, Start(model, given, loaded, now), first + more).engines == map[]
  {
    var s0 := Start(model, given, loaded, now);
    StartInv(model, given, loaded, now);
    RunInv(c, o, s0, first);
    RunInv(c, o, Run(c, o, s0, first), more);
    RunAppend(c, o, s0, first, more);
  }

  /** Closing alone already keeps new models out, whether or not the release has succeeded. */
  lemma ClosedOwnsNothingNew(c: Config, o: Oracle, model: ModelId, given: bool, loaded: bool, now: int,
                             first: seq<Op>, more: seq<Op>)
    requires Run(c, o, Start(model, given, loaded, now), first).closed
    ensures Run(c, o, Start(model, given, loaded, now), first + more).engines.Keys
            <= Run(c, o, Start(model, given, loaded, now), first).engines.Keys
  {
    var s0 := Start(model, given, loaded, now);
    StartInv(model, given, loaded, now);
    RunInv(c, o, s0, first);
    RunInv(c, o, Run(c, o, s0, first), more);
    RunAppend(c, o, s0, first, more);
  }

  // ---------- the answer of close_all ----------

  /** The k-th operation of a run unloads the engine that the snapshot has for the model. */
  predicate UnloadsAt(c: Config, o: Oracle, s: State, ops: seq<Op>, k: nat, id: ModelId) {
    k < |ops| && ops[k] == Release(id) && Unloadable(Run(c, o, s, ops[..k]), id)
  }

  predicate Unloadable(s: State, id: ModelId) {
    s.job.Job? && id in s.job.snapshot && id !in s.job.succeeded && id !in s.job.failed
  }

  function OutcomeAt(c: Config, o: Oracle, s: State, ops: seq<Op>, k: nat): Outcome
    requires k < |ops|
  {
    o(Run(c, o, s, ops[..k]).calls)
  }

  /** In the course of the run the engine was unloaded, and that returned or raised. */
  ghost predicate Unloaded(c: Config, o: Oracle, s: State, ops: seq<Op>, id: ModelId, returned: bool) {
    exists k: nat :: UnloadsAt(c, o, s, ops, k, id) && OutcomeAt(c, o, s, ops, k).Returns? == returned
  }

  lemma UnloadedBefore(c: Config, o: Oracle, s: State, ops: seq<Op>, id: ModelId, returned: bool)
    requires ops != []
    ensures var before, last := ops[..|ops| - 1], ops[|ops| - 1];
            var r := Run(c, o, s, before);
            Unloaded(c, o, s, ops, id, returned) <==>
            || Unloaded(c, o, s, before, id, returned)
            || (last == Release(id) && Unloadable(r, id) && o(r.calls).Returns? == returned)
  {
    var n := |ops| - 1;
    var before, r := ops[..n], Run(c, o, s, ops[..n]);
    if Unloaded(c, o, s, before, id, returned) {
      var k: nat :| UnloadsAt(c, o, s, before, k, id) && OutcomeAt(c, o, s, before, k).Returns? == returned;
      assert before[..k] == ops[..k];
      assert UnloadsAt(c, o, s, ops, k, id) && OutcomeAt(c, o, s, ops, k).Returns? == returned;
    } else if ops[n] == Release(id) && Unloadable(r, id) && o(r.calls).Returns? == returned {
      assert UnloadsAt(c, o, s, ops, n, id) && OutcomeAt(c, o, s, ops, n).Returns? == returned;
    } else if Unloaded(c, o, s, ops, id, returned) {
      var k: nat :| UnloadsAt(c, o, s, ops, k, id) && OutcomeAt(c, o, s, ops, k).Returns? == returned;
      if k < n {
        assert before[..k] == ops[..k];
        assert UnloadsAt(c, o, s, before, k, id);
      }
    }
  }

  ghost predicate JobAt(c: Config, o: Oracle, s: State, ops: seq<Op>, job: Job, id: ModelId)
    requires job.Job?
  {
    && (id in job.succeeded <==> Unloaded(c, o, s, ops, id, true))
    && (id in job.failed <==> Unloaded(c, o, s, ops, id, false))
    && (id in job.succeeded ==> id in job.snapshot && id !in job.failed)
    && (id in job.failed ==> id in job.snapshot)
  }

  ghost predicate OfSnapshot(s: State, snapshot: map<ModelId, nat>, id: ModelId) {
    id in s.engines ==> id in snapshot && s.engines[id].serial == snapshot[id]
  }

  /** While `close_all` is at work: its books are the unloads so far, and what is owned is from its snapshot. */
  ghost predicate AtWork(c: Config, o: Oracle, s: State, ops: seq<Op>, snapshot: map<ModelId, nat>) {
    var u := Run(c, o, s, ops);
    && Inv(u) && u.job.Job? && u.job.snapshot == snapshot && !u.released
    && forall id :: JobAt(c, o, s, ops, u.job, id) && OfSnapshot(u, snapshot, id)
  }

  ghost predicate SameEngines(s: State, t: State) {
    forall id :: id in t.engines ==> id in s.engines && t.engines[id].serial == s.engines[id].serial
  }

  function JobAfter(o: Oracle, s: State, op: Op): Job
    requires s.job.Job?
  {
    if !op.Release? || !Unloadable(s, op.id) then s.job
    else if o(s.calls).Returns? then s.job.(succeeded := s.job.succeeded + {op.id})
    else s.job.(failed := s.job.failed + {op.id})
  }

  lemma ReleaseSameEngines(o: Oracle, s: State, id: ModelId)
    requires Unloadable(s, id)
    ensures SameEngines(s, CloseRelease(o, s, id))
  {
    var owned := id in s.engines && s.engines[id].serial == s.job.snapshot[id];
    var u := if owned then CallUnload(o, s, id).s else Called(s);
    assert CloseRelease(o, s, id).engines == u.engines;
  }

  lemma ReleaseBooks(o: Oracle, s: State, id: ModelId)
    requires Unloadable(s, id)
    ensures var t := CloseRelease(o, s, id); t.released == s.released && t.job == JobAfter(o, s, Release(id))
  {
    var owned := id in s.engines && s.engines[id].serial == s.job.snapshot[id];
    var u := if owned then CallUnload(o, s, id).s else Called(s);
    assert u.released == s.released && u.job == s.job;
  }

  lemma ReleaseOfJob(c: Config, o: Oracle, s: State, id: ModelId)
    requires s.job.Job?
    ensures var t := Step(c, o, s, Release(id));
            t.released == s.released && t.job == JobAfter(o, s, Release(id)) && SameEngines(s, t)
  {
    if Unloadable(s, id) {
      ReleaseSameEngines(o, s, id);
      ReleaseBooks(o, s, id);
    }
  }

  /** What an operation other than the end of `close_all` does to its books. */
  lemma StepOfJob(c: Config, o: Oracle, s: State, op: Op)
    requires Inv(s) && s.job.Job? && !op.Finish?
    ensures var t := Step(c, o, s, op);
            t.released == s.released && t.job == JobAfter(o, s, op) && SameEngines(s, t)
  {
    if op.Release? {
      ReleaseOfJob(c, o, s, op.id);
    } else if !op.Begin? {
      var t := Step(c, o, s, op);
      OrdinaryGood(c, o, s, op);
      forall id | id in t.engines ensures id in s.engines && t.engines[id].serial == s.engines[id].serial {
        assert EvolvesAt(s, Like(s, t), id);
      }
    }
  }

  ghost predicate NoFinish(ops: seq<Op>) {
    forall k :: 0 <= k < |ops| ==> !ops[k].Finish?
  }

  lemma {:induction false} StaysAtWork(c: Config, o: Oracle, s: State, ops: seq<Op>, snapshot: map<ModelId, nat>)
    requires AtWork(c, o, s, [], snapshot) && NoFinish(ops)
    ensures AtWork(c, o, s, ops, snapshot)
  {
    if ops != [] {
      var before, last := ops[..|ops| - 1], ops[|ops| - 1];
      StaysAtWork(c, o, s, before, snapshot);
      var r, u := Run(c, o, s, before), Run(c, o, s, ops);
      StepInv(c, o, r, last);
      StepOfJob(c, o, r, last);
      forall id ensures JobAt(c, o, s, ops, u.job, id) && OfSnapshot(u, snapshot, id) {
        assert JobAt(c, o, s, before, r.job, id) && OfSnapshot(r, snapshot, id);
        UnloadedBefore(c, o, s, ops, id, true);
        UnloadedBefore(c, o, s, ops, id, false);
      }
    }
  }

  lemma BeginsWork(c: Config, o: Oracle, s: State)
    requires Inv(s) && s.job.NoJob? && s.engines != map[]
    ensures AtWork(c, o, Step(c, o, s, Begin), [], Snapshot(s))
  {
    var b := Step(c, o, s, Begin);
    StepInv(c, o, s, Begin);
    assert Run(c, o, b, []) == b;
    forall id ensures JobAt(c, o, b, [], b.job, id) && OfSnapshot(b, Snapshot(s), id) {
      assert forall k: nat :: !UnloadsAt(c, o, b, [], k, id);
    }
  }

  /** Every one of the models had its engine unloaded. */
  ghost predicate AllUnloaded(c: Config, o: Oracle, s: State, ops: seq<Op>, ids: set<ModelId>) {
    forall id :: id in ids ==> Unloaded(c, o, s, ops, id, true)
  }

  /** Of what `u` owns, `t` still owns what was not unloaded, as it was. */
  ghost predicate KeepsTheRest(c: Config, o: Oracle, s: State, ops: seq<Op>, u: State, t: State) {
    && (forall id :: id in t.engines <==> id in u.engines && !Unloaded(c, o, s, ops, id, true))
    && (forall id :: id in t.engines ==> t.engines[id] == u.engines[id])
  }

  lemma FinishKeepsTheRest(c: Config, o: Oracle, s: State, ops: seq<Op>, snapshot: map<ModelId, nat>)
    requires AtWork(c, o, s, ops, snapshot)
    ensures var u := Run(c, o, s, ops); KeepsTheRest(c, o, s, ops, u, CloseFinish(u))
  {
    var u := Run(c, o, s, ops);
    var t := CloseFinish(u);
    forall id ensures id in t.engines <==> id in u.engines && !Unloaded(c, o, s, ops, id, true) {
      assert JobAt(c, o, s, ops, u.job, id) && OfSnapshot(u, snapshot, id);
    }
  }

  lemma FinishAnswers(c: Config, o: Oracle, s: State, ops: seq<Op>, snapshot: map<ModelId, nat>)
    requires AtWork(c, o, s, ops, snapshot)
    ensures CloseFinish(Run(c, o, s, ops)).released <==> AllUnloaded(c, o, s, ops, snapshot.Keys)
  {
    var u := Run(c, o, s, ops);
    var t := CloseFinish(u);
    FinishKeepsTheRest(c, o, s, ops, snapshot);
    forall id | id in snapshot ensures id in u.job.succeeded <==> Unloaded(c, o, s, ops, id, true) {
      assert JobAt(c, o, s, ops, u.job, id);
    }
    if AllUnloaded(c, o, s, ops, snapshot.Keys) {
      forall id ensures id !in t.engines { assert OfSnapshot(u, snapshot, id); }
      assert t.engines == map[];
    }
  }

  lemma WorkOf(c: Config, o: Oracle, s: State, ops: seq<Op>)
    requires Inv(s) && s.job.NoJob? && s.engines != map[] && NoFinish(ops)
    ensures AtWork(c, o, Step(c, o, s, Begin), ops, Snapshot(s))
  {
    BeginsWork(c, o, s);
    StaysAtWork(c, o, Step(c, o, s, Begin), ops, Snapshot(s));
  }

  /** `close_all` answers true if and only if the unload of every engine owned when it began has returned, whatever else
      ran meanwhile; at its end it disowns the engines whose unload returned and no other. */
  lemma CloseAnswer(c: Config, o: Oracle, model: ModelId, given: bool, loaded: bool, now: int, first: seq<Op>,
                    ops: seq<Op>)
    requires var s := Run(c, o, Start(model, given, loaded, now), first);
             s.job.NoJob? && s.engines != map[] && NoFinish(ops)
    ensures var s := Run(c, o, Start(model, given, loaded, now), first);
            var b := Step(c, o, s, Begin);
            var u := Run(c, o, b, ops);
            var t := Step(c, o, u, Finish);
            && u.job.Job? && !u.released
            && (t.released <==> AllUnloaded(c, o, b, ops, s.engines.Keys))
            && KeepsTheRest(c, o, b, ops, u, t)
  {
    var s := Run(c, o, Start(model, given, loaded, now), first);
    var b := Step(c, o, s, Begin);
    StartInv(model, given, loaded, now);
    RunInv(c, o, Start(model, given, loaded, now), first);
    WorkOf(c, o, s, ops);
    FinishKeepsTheRest(c, o, b, ops, Snapshot(s));
    FinishAnswers(c, o, b, ops, Snapshot(s));
    assert Snapshot(s).Keys == s.engines.Keys;
  }

  /** An engine whose unload raised while `close_all` was at work keeps the answer from being true, and is owned at the
      end if it was owned just before, for a later attempt. */
  lemma FailedReleaseStaysOwned(c: Config, o: Oracle, model: ModelId, given: bool, loaded: bool, now: int,
                                first: seq<Op>, ops: seq<Op>, id: ModelId)
    requires var s := Run(c, o, Start(model, given, loaded, now), first);
             && s.job.NoJob? && s.engines != map[] && NoFinish(ops)
             && Unloaded(c, o, Step(c, o, s, Begin), ops, id, false)
    ensures var s := Run(c, o, Start(model, given, loaded, now), first);
            var u := Run(c, o, Step(c, o, s, Begin), ops);
            var t := Step(c, o, u, Finish);
            && id in s.engines && !t.released
            && (id in u.engines ==> id in t.engines && t.engines[id] == u.engines[id]
                                    && t.engines[id].serial == s.engines[id].serial)
  {
    var s := Run(c, o, Start(model, given, loaded, now), first);
    StartInv(model, given, loaded, now);
    RunInv(c, o, Start(model, given, loaded, now), first);
    WorkOf(c, o, s, ops);
    FinishAfterFailure(c, o, Step(c, o, s, Begin), ops, Snapshot(s), id);
  }

  lemma FinishAfterFailure(c: Config, o: Oracle, s: State, ops: seq<Op>, snapshot: map<ModelId, nat>, id: ModelId)
    requires AtWork(c, o, s, ops, snapshot) && Unloaded(c, o, s, ops, id, false)
    ensures var u := Run(c, o, s, ops);
            var t := CloseFinish(u);
            && id in snapshot && !t.released
            && (id in u.engines ==> id in t.engines && t.engines[id] == u.engines[id] && OfSnapshot(t, snapshot, id))
  {
    var u := Run(c, o, s, ops);
    FinishKeepsTheRest(c, o, s, ops, snapshot);
    FinishAnswers(c, o, s, ops, snapshot);
    assert JobAt(c, o, s, ops, u.job, id) && OfSnapshot(u, snapshot, id);
  }
}

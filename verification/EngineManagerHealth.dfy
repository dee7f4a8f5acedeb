/** The health of what a borrow hands out: always healthy in exactly five situations, and otherwise at the engines'
    mercy, since a replacement is not looked at again. */
module EngineManagerHealth {
  import opened EngineManager
  import opened EngineManagerProofs
  import opened EngineManagerBorrows

  /** Every engine built or loaded is healthy. */
  ghost predicate BuildsHealthy(o: Oracle) {
    forall n :: o(n).Returns? ==> o(n).healthy
  }

  ghost predicate HealthyIfGot(g: Res, id: ModelId) {
    g.ok ==> id in g.s.engines && g.s.engines[id].healthy
  }

  lemma CreatedHealthy(o: Oracle, s: State, id: ModelId, load: bool, hint: string, anew: bool)
    requires BuildsHealthy(o) && (!anew ==> id in s.engines && s.engines[id].healthy)
    ensures HealthyIfGot(CreateAndLoad(o, s, id, load, hint, anew), id)
  {
  }

  lemma GotRestHealthy(o: Oracle, r: State, id: ModelId, load: bool, hint: string, needsLoad: bool)
    requires BuildsHealthy(o)
    ensures HealthyIfGot(GetRest(o, r, id, load, hint, needsLoad), id)
  {
    if NeedsReplacement(r, id, hint) {
      var d := DropModel(o, r, id, false, true);
      var q := if load && !needsLoad then UnloadOthers(o, d.s, id, d.s.order) else Res(d.s, true);
      CreatedHealthy(o, q.s, id, load, hint, true);
    } else if id in r.engines && !r.engines[id].healthy {
      CreatedHealthy(o, DropModel(o, r, id, true, false).s, id, load, hint, true);
    } else {
      CreatedHealthy(o, r, id, load, hint, id !in r.engines);
    }
  }

  lemma GotHealthy(c: Config, o: Oracle, s: State, id: ModelId, load: bool, hint: string)
    requires BuildsHealthy(o)
    ensures HealthyIfGot(GetEngine(c, o, s, id, load, hint), id)
  {
    var needsLoad := load && !IsLoaded(s, id);
    var r := if needsLoad then UnloadOthers(o, s, id, s.order) else Res(s, true);
    GotRestHealthy(o, r.s, id, load, hint, needsLoad);
  }

  /** Then every borrow hands out a healthy engine, whatever state the manager is in. */
  lemma BorrowsAreHealthy(c: Config, o: Oracle, s: State, id: ModelId, hint: string)
    requires BuildsHealthy(o)
    ensures HandsOutHealthy(c, o, s, id, hint)
  {
    if id in c.enabled && !s.closed {
      var w := SwitchForBorrow(c, o, Touch(s, id), id, hint);
      if w.ok {
        GotHealthy(c, o, w.s, id, true, hint);
        var g := GetEngine(c, o, w.s, id, true, hint);
        GotHealthy(c, o, DropModel(o, g.s, id, true, false).s, id, true, hint);
      }
    }
  }

  lemma FreshIsUnhealthy(c: Config, o: Oracle, s: State, id: ModelId)
    requires id in c.enabled && !s.closed && s.engines == map[] && s.order == []
    requires forall n :: o(n) == Returns(false)
    ensures var g := GetEngine(c, o, s, id, true, "");
            && g.ok && g.s.order == [id] && g.s.engines == map[id := Engine(s.nextSerial, "", true, false)]
            && g.s.calls == s.calls + 2 && !g.s.closed
  {
    assert UnloadOthers(o, s, id, s.order) == Res(s, true);
    assert o(s.calls) == Returns(false) && o(s.calls + 1) == Returns(false);
    var e := CreateEngine(o, s, id, "");
    assert e.ok && e.s.engines == map[id := Engine(s.nextSerial, "", false, false)];
    assert LoadEngine(o, e.s, id) == Res(Loaded(Called(e.s), id, false), true);
  }

  lemma DroppingUnhealthy(o: Oracle, s: State, id: ModelId)
    requires id in s.engines && s.engines.Keys == {id} && s.order == [id] && o(s.calls).Returns?
    ensures var d := DropModel(o, s, id, true, false).s;
            d.engines == map[] && d.order == [] && d.calls == s.calls + 1 && d.closed == s.closed
  {
    assert Without([id], id) == [];
  }

  /** The replacement of an unhealthy engine is not looked at again: if every engine comes out unhealthy, so does the
      one that is handed out. */
  lemma UnhealthyReplacementIsHandedOut(c: Config, o: Oracle, s: State, id: ModelId)
    requires id in c.enabled && !s.closed && s.engines == map[] && s.order == [] && id == s.current
    requires forall n :: o(n) == Returns(false)
    ensures var h := Obtain(c, o, s, id, "");
            h.ok && !HandsOutHealthy(c, o, s, id, "") && h.s.calls == s.calls + 5
  {
    var w := Touch(s, id);
    FreshIsUnhealthy(c, o, w, id);
    var g := GetEngine(c, o, w, id, true, "");
    assert o(g.s.calls) == Returns(false) && g.s.engines.Keys == {id};
    DroppingUnhealthy(o, g.s, id);
    FreshIsUnhealthy(c, o, DropModel(o, g.s, id, true, false).s, id);
  }

  // ---------- exactly when a borrow cannot hand out an unhealthy engine ----------

  /** The engine is there, as asked for. */
  predicate Ready(s: State, id: ModelId, hint: string) {
    IsLoaded(s, id) && s.engines[id].healthy && !NeedsReplacement(s, id, hint)
  }

  predicate BusyAndLoaded(s: State, id: ModelId, i: ModelId) {
    i != id && IsLoaded(s, i) && Count(s, i) > 0
  }

  predicate BusyOther(s: State, id: ModelId) {
    exists i :: i in s.order && BusyAndLoaded(s, id, i)
  }

  /** The model cannot be had at all: it is in use with another provider, or its memory is. */
  predicate Blocked(s: State, id: ModelId, hint: string) {
    || (NeedsReplacement(s, id, hint) && Count(s, id) > 0)
    || (!IsLoaded(s, id) && BusyOther(s, id))
  }

  /** What bears on the model and its rivals is the same. */
  ghost predicate SameFor(s: State, t: State, id: ModelId) {
    && (id in s.engines <==> id in t.engines) && (id in s.engines ==> s.engines[id] == t.engines[id])
    && s.active == t.active && s.order == t.order
  }

  lemma {:induction false} UnloadOthersSame(o: Oracle, s: State, id: ModelId, ids: seq<ModelId>)
    ensures SameFor(s, UnloadOthers(o, s, id, ids).s, id)
    decreases ids
  {
    if ids != [] {
      if ids[0] == id || !IsLoaded(s, ids[0]) {
        UnloadOthersSame(o, s, id, ids[1..]);
      } else {
        var u := UnloadModel(o, s, ids[0], false);
        if Count(s, ids[0]) <= 0 && u.ok { UnloadOthersSame(o, u.s, id, ids[1..]); }
      }
    }
  }

  lemma {:induction false} BusyOtherStops(o: Oracle, s: State, id: ModelId, ids: seq<ModelId>, i: ModelId)
    requires i in ids && BusyAndLoaded(s, id, i)
    ensures !UnloadOthers(o, s, id, ids).ok
    decreases ids
  {
    if ids[0] == id || !IsLoaded(s, ids[0]) {
      BusyOtherStops(o, s, id, ids[1..], i);
    } else if Count(s, ids[0]) <= 0 {
      var u := UnloadModel(o, s, ids[0], false);
      if u.ok { BusyOtherStops(o, u.s, id, ids[1..], i); }
    }
  }

  lemma ReadyIsGot(c: Config, o: Oracle, s: State, id: ModelId, hint: string)
    requires id in c.enabled && !s.closed && Ready(s, id, hint)
    ensures GetEngine(c, o, s, id, true, hint) == Res(s, true)
  {
  }

  lemma BlockedIsNotGot(c: Config, o: Oracle, s: State, id: ModelId, hint: string)
    requires Blocked(s, id, hint)
    ensures !GetEngine(c, o, s, id, true, hint).ok
  {
    if id in c.enabled && !s.closed {
      if !IsLoaded(s, id) && BusyOther(s, id) {
        var i :| i in s.order && BusyAndLoaded(s, id, i);
        BusyOtherStops(o, s, id, s.order, i);
      } else {
        UnloadOthersSame(o, s, id, s.order);
      }
    }
  }

  /** Making way for the model leaves its situation as it is. */
  lemma WayKeepsSituation(o: Oracle, s: State, id: ModelId, hint: string, unloadPrevious: bool)
    ensures var t := MakeWay(o, Touch(s, id), id, unloadPrevious).s;
            && (Ready(t, id, hint) <==> Ready(s, id, hint)) && (Blocked(t, id, hint) <==> Blocked(s, id, hint))
            && (IsLoaded(t, id) <==> IsLoaded(s, id)) && t.closed == s.closed
  {
    var t := MakeWay(o, Touch(s, id), id, unloadPrevious).s;
    assert forall i :: BusyAndLoaded(t, id, i) <==> BusyAndLoaded(s, id, i);
    assert t.order == s.order;
  }

  ghost predicate Settled(s: State, id: ModelId, hint: string) {
    !s.closed && (Ready(s, id, hint) || Blocked(s, id, hint))
  }

  lemma TouchedSettled(s: State, id: ModelId, hint: string)
    requires Settled(s, id, hint)
    ensures Settled(Touch(s, id), id, hint)
  {
    var t := Touch(s, id);
    if BusyOther(s, id) {
      var i :| i in s.order && BusyAndLoaded(s, id, i);
      assert BusyAndLoaded(t, id, i);
    }
  }

  lemma SettledGet(c: Config, o: Oracle, s: State, id: ModelId, hint: string)
    requires id in c.enabled && Settled(s, id, hint)
    ensures var g := GetEngine(c, o, s, id, true, hint); g.ok ==> g.s == s && Ready(s, id, hint)
  {
    if Ready(s, id, hint) { ReadyIsGot(c, o, s, id, hint); } else { BlockedIsNotGot(c, o, s, id, hint); }
  }

  lemma SettledSwitch(c: Config, o: Oracle, s: State, id: ModelId, hint: string)
    requires id in c.enabled && Settled(s, id, hint)
    ensures var w := SwitchForBorrow(c, o, s, id, hint); w.ok ==> Settled(w.s, id, hint)
  {
    if id != s.current && c.unloadOnSwitch {
      var u := MakeWay(o, Touch(s, id), id, true);
      WayKeepsSituation(o, s, id, hint, true);
      SettledGet(c, o, u.s, id, hint);
    }
  }

  /** Nothing that the engines do makes such a borrow hand out an unhealthy one. */
  lemma SettledBorrow(c: Config, o: Oracle, s: State, id: ModelId, hint: string)
    requires id in c.enabled && Settled(s, id, hint)
    ensures HandsOutHealthy(c, o, s, id, hint)
  {
    TouchedSettled(s, id, hint);
    SettledSwitch(c, o, Touch(s, id), id, hint);
    var w := SwitchForBorrow(c, o, Touch(s, id), id, hint);
    if w.ok { SettledGet(c, o, w.s, id, hint); }
  }

  // ---------- otherwise everything can come out unhealthy ----------

  ghost predicate AllUnhealthy(o: Oracle) {
    forall n :: o(n) == Returns(false)
  }

  /** The engine is loaded, unhealthy and of the provider asked for, and no other one is loaded. */
  ghost predicate Spoilt(s: State, id: ModelId, hint: string) {
    && IsLoaded(s, id) && !s.engines[id].healthy && !NeedsReplacement(s, id, hint)
    && OnlyLoaded(s, id)
  }

  ghost predicate OnlyLoaded(s: State, id: ModelId) {
    forall i :: i != id ==> !IsLoaded(s, i)
  }

  lemma CreatesSpoilt(o: Oracle, s: State, id: ModelId, hint: string)
    requires AllUnhealthy(o) && OnlyLoaded(s, id)
    ensures var g := CreateAndLoad(o, s, id, true, hint, true); g.ok && Spoilt(g.s, id, hint)
  {
    assert o(s.calls) == Returns(false) && o(s.calls + 1) == Returns(false);
    var e := CreateEngine(o, s, id, hint).s;
    var t := LoadEngine(o, e, id).s;
    assert t.engines == s.engines[id := Engine(s.nextSerial, hint, true, false)];
    forall i | i != id ensures !IsLoaded(t, i) { assert !IsLoaded(s, i); }
  }

  lemma LoadsSpoilt(o: Oracle, s: State, id: ModelId, hint: string)
    requires AllUnhealthy(o) && OnlyLoaded(s, id) && id in s.engines && !NeedsReplacement(s, id, hint)
    requires s.engines[id].loaded ==> !s.engines[id].healthy
    ensures var g := CreateAndLoad(o, s, id, true, hint, false); g.ok && Spoilt(g.s, id, hint)
  {
    assert o(s.calls) == Returns(false);
    var g := CreateAndLoad(o, s, id, true, hint, false);
    forall i | i != id ensures !IsLoaded(g.s, i) { assert !IsLoaded(s, i); }
  }

  lemma Drops(o: Oracle, s: State, id: ModelId, force: bool, raiseIfBusy: bool)
    requires AllUnhealthy(o) && OnlyLoaded(s, id) && id in s.engines && (force || Count(s, id) <= 0)
    ensures var d := DropModel(o, s, id, force, raiseIfBusy).s;
            id !in d.engines && OnlyLoaded(d, id) && d.closed == s.closed
  {
    assert o(s.calls) == Returns(false);
    var d := DropModel(o, s, id, force, raiseIfBusy).s;
    assert d.engines == s.engines[id := s.engines[id].(loaded := false)] - {id};
    forall i | i != id ensures !IsLoaded(d, i) { assert !IsLoaded(s, i); }
  }

  lemma {:induction false} MakesRoom(o: Oracle, s: State, id: ModelId, ids: seq<ModelId>)
    requires AllUnhealthy(o) && forall i :: i in ids ==> !BusyAndLoaded(s, id, i)
    ensures UnloadOthers(o, s, id, ids).ok
    decreases ids
  {
    if ids != [] {
      if ids[0] == id || !IsLoaded(s, ids[0]) {
        MakesRoom(o, s, id, ids[1..]);
      } else {
        assert !BusyAndLoaded(s, id, ids[0]) && o(s.calls) == Returns(false);
        var u := UnloadModel(o, s, ids[0], false);
        forall i | i in ids[1..] ensures !BusyAndLoaded(u.s, id, i) { assert !BusyAndLoaded(s, id, i); }
        MakesRoom(o, u.s, id, ids[1..]);
      }
    }
  }

  /** From there on, getting the engine spoils it. */
  lemma RestSpoils(o: Oracle, r: State, id: ModelId, hint: string, needsLoad: bool)
    requires AllUnhealthy(o) && OnlyLoaded(r, id) && !Ready(r, id, hint)
    requires NeedsReplacement(r, id, hint) ==> Count(r, id) <= 0
    ensures var g := GetRest(o, r, id, true, hint, needsLoad); g.ok && Spoilt(g.s, id, hint)
  {
    if NeedsReplacement(r, id, hint) {
      Drops(o, r, id, false, true);
      var d := DropModel(o, r, id, false, true).s;
      NoneLoadedAmong(o, d, id, d.order);
      CreatesSpoilt(o, d, id, hint);
    } else if id in r.engines && !r.engines[id].healthy {
      Drops(o, r, id, true, false);
      CreatesSpoilt(o, DropModel(o, r, id, true, false).s, id, hint);
    } else if id in r.engines {
      LoadsSpoilt(o, r, id, hint);
    } else {
      CreatesSpoilt(o, r, id, hint);
    }
  }

  lemma {:induction false} NoneLoadedAmong(o: Oracle, s: State, id: ModelId, ids: seq<ModelId>)
    requires OnlyLoaded(s, id)
    ensures UnloadOthers(o, s, id, ids) == Res(s, true)
    decreases ids
  {
    if ids != [] { NoneLoadedAmong(o, s, id, ids[1..]); }
  }

  /** Getting an engine that is neither ready nor out of reach hands out an unhealthy one. */
  lemma GetSpoils(c: Config, o: Oracle, s: State, id: ModelId, hint: string)
    requires AllUnhealthy(o) && id in c.enabled && !s.closed && Base(s) && (IsLoaded(s, id) ==> OnlyLoaded(s, id))
    requires !Ready(s, id, hint) && !Blocked(s, id, hint)
    ensures var g := GetEngine(c, o, s, id, true, hint); g.ok && Spoilt(g.s, id, hint)
  {
    if IsLoaded(s, id) {
      RestSpoils(o, s, id, hint, false);
    } else {
      MakesRoom(o, s, id, s.order);
      UnloadOthersGood(o, s, id, s.order);
      UnloadOthersSame(o, s, id, s.order);
      var r := UnloadOthers(o, s, id, s.order).s;
      forall i | i != id ensures !IsLoaded(r, i) { assert SoundAt(r, i); }
      RestSpoils(o, r, id, hint, true);
    }
  }

  /** A spoilt engine stays spoilt through the replacement. */
  lemma SpoiltRest(c: Config, o: Oracle, s: State, id: ModelId, hint: string)
    requires AllUnhealthy(o) && id in c.enabled && !s.closed && Base(s) && (IsLoaded(s, id) ==> OnlyLoaded(s, id))
    requires !Ready(s, id, hint) && !Blocked(s, id, hint)
    ensures var h := ObtainRest(c, o, s, id, hint); h.ok && Spoilt(h.s, id, hint)
  {
    GetSpoils(c, o, s, id, hint);
    GetGood(c, o, s, id, true, hint);
    var g := GetEngine(c, o, s, id, true, hint).s;
    Drops(o, g, id, true, false);
    DropGood(o, g, id, true, false);
    var d := DropModel(o, g, id, true, false).s;
    assert !BusyOther(d, id);
    GetSpoils(c, o, d, id, hint);
  }

  lemma OneLoadedOn(s: State, t: State)
    requires OneLoaded(s) && NoneLoaded(s, t)
    ensures OneLoaded(t)
  {
    forall i, j | IsLoaded(t, i) && IsLoaded(t, j) ensures i == j {
      assert NotNewlyLoaded(s, t, i) && NotNewlyLoaded(s, t, j);
    }
  }

  lemma SwitchSpoils(c: Config, o: Oracle, s: State, id: ModelId, hint: string)
    requires AllUnhealthy(o) && id in c.enabled && !s.closed && Base(s) && OneLoaded(s)
    requires !Ready(s, id, hint) && !Blocked(s, id, hint)
    ensures var w := SwitchForBorrow(c, o, s, id, hint);
            && w.ok && !w.s.closed && Base(w.s) && (IsLoaded(w.s, id) ==> OnlyLoaded(w.s, id))
            && !Ready(w.s, id, hint) && !Blocked(w.s, id, hint)
  {
    if id != s.current && c.unloadOnSwitch {
      var t := Touch(s, id);
      var u := MakeWay(o, t, id, true).s;
      WayKeepsSituation(o, s, id, hint, true);
      TouchGood(s, id, id);
      UnloadGood(o, t, t.current, false);
      MarkGood(t, t.pending, t.dropFailed);
      forall i ensures NotNewlyLoaded(s, t, i) {}
      NoneLoadedOn(s, t, u);
      OneLoadedOn(s, u);
      GetSpoils(c, o, u, id, hint);
      GetGood(c, o, u, id, true, hint);
      var g := GetEngine(c, o, u, id, true, hint).s;
      TouchGood(g, id, id);
      var w := g.(current := id);
      forall i | i != id ensures !IsLoaded(w, i) { assert !IsLoaded(g, i); }
    } else {
      assert SwitchForBorrow(c, o, s, id, hint) == Res(s, true);
    }
  }

  lemma UnsettledBorrow(c: Config, o: Oracle, s: State, id: ModelId, hint: string)
    requires AllUnhealthy(o) && id in c.enabled && !s.closed && Base(s) && OneLoaded(s)
    requires !Ready(s, id, hint) && !Blocked(s, id, hint)
    ensures !HandsOutHealthy(c, o, s, id, hint)
  {
    var t := Touch(s, id);
    TouchGood(s, id, id);
    assert forall i :: BusyAndLoaded(t, id, i) <==> BusyAndLoaded(s, id, i);
    assert t.order == s.order;
    forall i ensures NotNewlyLoaded(s, t, i) {}
    OneLoadedOn(s, t);
    SwitchSpoils(c, o, t, id, hint);
    SpoiltRest(c, o, SwitchForBorrow(c, o, t, id, hint).s, id, hint);
  }

  /** A borrow hands out a healthy engine, or none, whatever the engines do, if and only if the model is not enabled,
      the manager is closed, the very engine asked for is loaded and healthy, or it cannot be had: it is in use with
      another provider, or unloaded while another loaded model is in use. */
  lemma BorrowIsHealthyExactlyWhen(c: Config, s: State, id: ModelId, hint: string)
    requires Base(s) && OneLoaded(s)
    ensures (forall o: Oracle :: HandsOutHealthy(c, o, s, id, hint)) <==>
            id !in c.enabled || s.closed || Ready(s, id, hint) || Blocked(s, id, hint)
  {
    if id !in c.enabled || s.closed {
    } else if Settled(s, id, hint) {
      forall o: Oracle ensures HandsOutHealthy(c, o, s, id, hint) { SettledBorrow(c, o, s, id, hint); }
    } else {
      var o: Oracle := n => Returns(false);
      UnsettledBorrow(c, o, s, id, hint);
    }
  }
}

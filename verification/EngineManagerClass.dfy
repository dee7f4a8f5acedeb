/** The manager as the object it is: methods that update the tables in place, each one against its specification.
    The methods stand for what runs under the manager's lock; `close_all` is three of them, as it frees the lock. */
module EngineManagerClass {
  import opened EngineManager

  /** A model call answers yes or no, or raises because the model is busy. */
  datatype Answer = Yes | No | BusyError

  class Manager {
    const config: Config
    const oracle: Oracle
    var engines: map<ModelId, Engine>
    var order: seq<ModelId>
    var activeCounts: map<ModelId, int>
    var lastUsed: map<ModelId, int>
    var pendingRebuild: set<ModelId>
    var currentModelId: ModelId
    var closed: bool
    var job: Job
    var now: int
    var calls: nat
    var nextSerial: nat
    ghost var live: map<ModelId, nat>
    ghost var dropFailed: set<ModelId>
    ghost var released: bool
    ghost var crowded: bool

    ghost function Tables(): State
      reads this
    {
      State(engines, order, activeCounts, lastUsed, pendingRebuild, currentModelId, closed, job, now, calls, nextSerial,
            live, dropFailed, released, crowded)
    }

    constructor (config: Config, oracle: Oracle, model: ModelId, given: bool, loaded: bool, now: int)
      ensures Tables() == Start(model, given, loaded, now)
      ensures this.config == config && this.oracle == oracle
    {
      this.config := config;
      this.oracle := oracle;
      engines := if given then map["kokoro" := Engine(0, "", loaded, true)] else map[];
      order := if given then ["kokoro"] else [];
      activeCounts := map[];
      lastUsed := if given then map["kokoro" := now] else map[];
      pendingRebuild := {};
      currentModelId := if given then "kokoro" else model;
      closed := false;
      job := NoJob;
      this.now := now;
      calls := 0;
      nextSerial := 1;
      live := map[];
      dropFailed := {};
      released := false;
      crowded := false;
    }

    method ActiveCount(id: ModelId) returns (n: int)
      ensures n == Count(Tables(), id)
    {
      n := if id in activeCounts then activeCounts[id] else 0;
    }

    method TouchModel(id: ModelId)
      modifies this
      ensures Tables() == Touch(old(Tables()), id)
    {
      lastUsed := lastUsed[id := now];
    }

    method InvokeUnload(id: ModelId) returns (ok: bool)
      requires id in engines
      modifies this
      ensures Res(Tables(), ok) == CallUnload(oracle, old(Tables()), id)
    {
      var engine := engines[id];
      match oracle(calls) {
        case Returns(_) =>
          engines := engines[id := engine.(loaded := false)];
          ok := true;
        case Raises(stays) =>
          engines := engines[id := engine.(loaded := engine.loaded && stays)];
          ok := false;
      }
      calls := calls + 1;
    }

    method Pop(id: ModelId)
      modifies this
      ensures Tables() == Disown(old(Tables()), id)
    {
      engines := engines - {id};
      order := Without(order, id);
    }

    method Unload(id: ModelId, force: bool, raiseIfBusy: bool) returns (answer: Answer)
      modifies this
      ensures Res(Tables(), answer == Yes) == UnloadModel(oracle, old(Tables()), id, force)
      ensures answer == BusyError <==> raiseIfBusy && !force && Count(old(Tables()), id) > 0
    {
      var active := ActiveCount(id);
      if active > 0 && !force {
        return if raiseIfBusy then BusyError else No;
      }
      if id !in engines {
        return No;
      }
      var ok := InvokeUnload(id);
      if !ok {
        return No;
      }
      if force {
        activeCounts := activeCounts[id := 0];
      }
      answer := Yes;
    }

    method Drop(id: ModelId, force: bool, raiseIfBusy: bool) returns (answer: Answer)
      modifies this
      ensures Res(Tables(), answer == Yes) == DropModel(oracle, old(Tables()), id, force, raiseIfBusy)
      ensures answer == BusyError <==> raiseIfBusy && !force && Count(old(Tables()), id) > 0
    {
      var active := ActiveCount(id);
      if active > 0 && !force {
        if raiseIfBusy {
          return BusyError;
        }
        pendingRebuild := pendingRebuild + {id};
        return No;
      }
      if id !in engines {
        pendingRebuild := pendingRebuild - {id};
        return No;
      }
      var ok := InvokeUnload(id);
      if !ok {
        pendingRebuild := pendingRebuild + {id};
        dropFailed := dropFailed + {id};
        return No;
      }
      pendingRebuild := pendingRebuild - {id};
      dropFailed := dropFailed - {id};
      Pop(id);
      if force {
        activeCounts := activeCounts[id := 0];
      }
      answer := Yes;
    }

    method UnloadOtherLoadedModels(target: ModelId) returns (ok: bool)
      modifies this
      ensures Res(Tables(), ok) == UnloadOthers(oracle, old(Tables()), target, old(order))
    {
      var ids := order;
      var i := 0;
      while i < |ids|
        invariant 0 <= i <= |ids|
        invariant UnloadOthers(oracle, Tables(), target, ids[i..]) == UnloadOthers(oracle, old(Tables()), target, ids)
      {
        var id := ids[i];
        assert ids[i..][0] == id && ids[i..][1..] == ids[i + 1..];
        if id != target && id in engines && engines[id].loaded {
          var active := ActiveCount(id);
          if active > 0 {
            return false;
          }
          var answer := Unload(id, false, false);
          if answer != Yes {
            return false;
          }
        }
        i := i + 1;
      }
      ok := true;
    }

    method Create(id: ModelId, hint: string) returns (ok: bool)
      modifies this
      ensures Res(Tables(), ok) == CreateEngine(oracle, old(Tables()), id, hint)
    {
      match oracle(calls) {
        case Returns(healthy) =>
          order := if id in engines then order else order + [id];
          engines := engines[id := Engine(nextSerial, hint, false, healthy)];
          ok := true;
        case Raises(_) =>
          ok := false;
      }
      calls := calls + 1;
      nextSerial := nextSerial + 1;
    }

    /** `engine.load()`; what a load does to the tables follows after it. */
    method InvokeLoad() returns (how: Outcome)
      modifies this`calls
      ensures Tables() == Called(old(Tables()))
      ensures how == oracle(old(calls))
    {
      how := oracle(calls);
      calls := calls + 1;
    }

    method Load(id: ModelId) returns (ok: bool)
      requires id in engines
      modifies this
      ensures Res(Tables(), ok) == LoadEngine(oracle, old(Tables()), id)
    {
      var how := InvokeLoad();
      ok := FinishLoad(id, how);
    }

    method FinishLoad(id: ModelId, how: Outcome) returns (ok: bool)
      requires id in engines
      modifies this
      ensures Res(Tables(), ok) == AfterLoad(oracle, old(Tables()), id, how)
    {
      match how {
        case Returns(healthy) =>
          MarkLoaded(id, healthy);
          ok := true;
        case Raises(_) =>
          DiscardLoad(id);
          ok := false;
      }
    }

    method MarkLoaded(id: ModelId, healthy: bool)
      requires id in engines
      modifies this
      ensures Tables() == Loaded(old(Tables()), id, healthy)
    {
      engines := engines[id := engines[id].(loaded := true, healthy := healthy)];
      lastUsed := lastUsed[id := now];
    }

    method DiscardLoad(id: ModelId)
      requires id in engines
      modifies this
      ensures Tables() == DiscardFailedLoad(oracle, old(Tables()), id)
    {
      activeCounts := activeCounts[id := 0];
      var _ := InvokeUnload(id);
      Pop(id);
    }

    method Get(id: ModelId, load: bool, hint: string) returns (ok: bool)
      modifies this
      ensures Res(Tables(), ok) == GetEngine(config, oracle, old(Tables()), id, load, hint)
    {
      if id !in config.enabled || closed {
        return false;
      }
      var needsLoad := load && (id !in engines || !engines[id].loaded);
      if needsLoad {
        ok := UnloadOtherLoadedModels(id);
        if !ok {
          return;
        }
      }
      ok := GetUnderRoom(id, load, hint, needsLoad);
    }

    method GetUnderRoom(id: ModelId, load: bool, hint: string, needsLoad: bool) returns (ok: bool)
      modifies this
      ensures Res(Tables(), ok) == GetRest(oracle, old(Tables()), id, load, hint, needsLoad)
    {
      var anew := id !in engines;
      if id in engines && id == "moss" && hint != "" && engines[id].provider != "" && engines[id].provider != hint {
        var active := ActiveCount(id);
        if active > 0 {
          return false;
        }
        var _ := Drop(id, false, true);
        if load && !needsLoad {
          ok := UnloadOtherLoadedModels(id);
          if !ok {
            return;
          }
        }
        anew := true;
      } else if id in engines && !engines[id].healthy {
        var _ := Drop(id, true, false);
        anew := true;
      }
      if anew {
        ok := Create(id, hint);
        if !ok {
          return;
        }
      }
      ok := true;
      if load && !engines[id].loaded {
        ok := Load(id);
      }
    }

    method SwitchTo(id: ModelId, hint: string, unloadPrevious: bool, load: bool) returns (ok: bool)
      modifies this
      ensures Res(Tables(), ok) == SwitchModel(config, oracle, old(Tables()), id, hint, unloadPrevious, load)
    {
      if id !in config.enabled || closed {
        return false;
      }
      TouchModel(id);
      var previous := currentModelId;
      var unloadedPrevious := false;
      if unloadPrevious && previous != id {
        var active := ActiveCount(previous);
        if active <= 0 {
          var answer := Unload(previous, false, false);
          unloadedPrevious := answer == Yes;
        }
      }
      ghost var way := Res(Tables(), unloadedPrevious);
      assert way == MakeWay(oracle, Touch(old(Tables()), id), id, unloadPrevious);
      ok := Get(id, load, hint);
      if ok {
        currentModelId := id;
      } else if unloadedPrevious {
        var _ := Get(previous, true, "");
      }
      assert Res(Tables(), ok) == SwitchRest(config, oracle, way, previous, id, hint, load);
    }

    method BorrowEngine(id: ModelId, hint: string) returns (ok: bool)
      modifies this
      ensures Res(Tables(), ok) == BorrowEnter(config, oracle, old(Tables()), id, hint)
    {
      ok := ObtainForBorrow(id, hint);
      if ok {
        CountBorrow(id);
      }
    }

    method CountBorrow(id: ModelId)
      modifies this
      ensures Tables() == Register(old(Tables()), id)
    {
      var active := ActiveCount(id);
      activeCounts := activeCounts[id := active + 1];
      live := live[id := Live(Tables(), id) + 1];
    }

    method ObtainForBorrow(id: ModelId, hint: string) returns (ok: bool)
      modifies this
      ensures Res(Tables(), ok) == Obtain(config, oracle, old(Tables()), id, hint)
    {
      if id !in config.enabled || closed {
        return false;
      }
      TouchModel(id);
      ok := true;
      if id != currentModelId && config.unloadOnSwitch {
        ok := SwitchTo(id, hint, true, true);
      }
      if ok {
        ok := ObtainEngine(id, hint);
      }
    }

    method ObtainEngine(id: ModelId, hint: string) returns (ok: bool)
      modifies this
      ensures Res(Tables(), ok) == ObtainRest(config, oracle, old(Tables()), id, hint)
    {
      ok := Get(id, true, hint);
      if ok && id in engines && !engines[id].healthy {
        var _ := Drop(id, true, false);
        ok := Get(id, true, hint);
      }
    }

    method ReturnEngine(id: ModelId)
      requires Live(Tables(), id) > 0
      modifies this
      ensures Tables() == BorrowExit(oracle, old(Tables()), id)
    {
      live := live[id := (Live(Tables(), id) - 1) as nat];
      if closed && id !in engines {
        activeCounts := activeCounts - {id};
        lastUsed := lastUsed - {id};
        pendingRebuild := pendingRebuild - {id};
        return;
      }
      var active := ActiveCount(id);
      activeCounts := activeCounts[id := Max(0, active - 1)];
      if closed {
        return;
      }
      TouchModel(id);
      if activeCounts[id] == 0 && id in pendingRebuild {
        pendingRebuild := pendingRebuild - {id};
        var _ := Drop(id, true, false);
      }
    }

    method CheckAndUnloadIdleModels()
      modifies this
      ensures Tables() == IdlePass(config, oracle, old(Tables()), old(order))
    {
      if config.idleTimeout <= 0 {
        return;
      }
      var ids := order;
      var i := 0;
      while i < |ids|
        invariant 0 <= i <= |ids|
        invariant IdlePass(config, oracle, Tables(), ids[i..]) == IdlePass(config, oracle, old(Tables()), ids)
      {
        var id := ids[i];
        assert ids[i..][0] == id && ids[i..][1..] == ids[i + 1..];
        if (id != currentModelId || config.unloadCurrent) && id in engines && engines[id].loaded {
          var active := ActiveCount(id);
          var last := if id in lastUsed then lastUsed[id] else 0;
          if active <= 0 && now - last >= config.idleTimeout {
            var _ := Unload(id, false, false);
          }
        }
        i := i + 1;
      }
    }

    method UnloadInactiveModels(force: bool, includeCurrent: bool)
      modifies this
      ensures Tables() == UnloadInactive(oracle, old(Tables()), force, includeCurrent, old(order))
    {
      var ids := order;
      var i := 0;
      while i < |ids|
        invariant 0 <= i <= |ids|
        invariant UnloadInactive(oracle, Tables(), force, includeCurrent, ids[i..])
               == UnloadInactive(oracle, old(Tables()), force, includeCurrent, ids)
      {
        var id := ids[i];
        assert ids[i..][0] == id && ids[i..][1..] == ids[i + 1..];
        if id != currentModelId || includeCurrent {
          var _ := Unload(id, force, false);
        }
        i := i + 1;
      }
    }

    method BeginCloseAll() returns (released: bool)
      requires job.NoJob?
      modifies this
      ensures Tables() == CloseBegin(old(Tables()))
      ensures released <==> old(engines) == map[]
    {
      closed := true;
      released := engines == map[];
      if released {
        this.released := true;
      } else {
        pendingRebuild := {};
        job := Job(map id | id in engines :: engines[id].serial, {}, {});
      }
    }

    method ReleaseFromSnapshot(id: ModelId)
      requires job.Job? && id in job.snapshot.Keys - job.succeeded - job.failed
      modifies this
      ensures Tables() == CloseRelease(oracle, old(Tables()), id)
    {
      var ok := oracle(calls).Returns?;
      if id in engines && engines[id].serial == job.snapshot[id] {
        var _ := InvokeUnload(id);
      } else {
        calls := calls + 1;
      }
      job := if ok then job.(succeeded := job.succeeded + {id}) else job.(failed := job.failed + {id});
    }

    method FinishCloseAll() returns (allReleased: bool)
      requires job.Job?
      modifies this
      ensures Tables() == CloseFinish(old(Tables()))
      ensures allReleased <==> old(job.snapshot.Keys <= job.succeeded) && engines == map[]
    {
      var gone := Releasable(engines, job);
      engines := engines - gone;
      order := WithoutAll(order, gone);
      activeCounts := activeCounts - job.succeeded;
      lastUsed := lastUsed - job.succeeded;
      allReleased := job.snapshot.Keys <= job.succeeded && engines == map[];
      released := released || allReleased;
      job := NoJob;
    }
  }
}

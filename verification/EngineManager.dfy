/** The model lifecycle of `EngineManager`: what each operation under the manager's lock does to its tables.

    An engine is what the manager can see of it: whether it is loaded and healthy and which provider it was asked
    for.  Every call into an engine may fail; how the n-th call of a run goes is `oracle(n)`, so a statement for all
    oracles is a statement for every pattern of failures.  Dictionary order is kept in `order`. */
module EngineManager {

  type ModelId = string

  datatype Engine = Engine(serial: nat, provider: string, loaded: bool, healthy: bool)

  /** A call into an engine returns, or raises and leaves a loaded engine loaded or not; an engine just built or loaded
      may turn out unhealthy. */
  datatype Outcome = Returns(healthy: bool) | Raises(staysLoaded: bool)

  type Oracle = nat -> Outcome

  datatype Config = Config(enabled: set<ModelId>, unloadOnSwitch: bool, idleTimeout: int, unloadCurrent: bool)

  /** A `close_all` in progress: the engines it took a snapshot of, and how far it has got. */
  datatype Job = NoJob | Job(snapshot: map<ModelId, nat>, succeeded: set<ModelId>, failed: set<ModelId>)

  datatype State = State(
    engines: map<ModelId, Engine>,
    order: seq<ModelId>,
    active: map<ModelId, int>,
    lastUsed: map<ModelId, int>,
    pending: set<ModelId>,
    current: ModelId,
    closed: bool,
    job: Job,
    now: int,
    calls: nat,
    nextSerial: nat,
    // History; no operation reads these.
    live: map<ModelId, nat>,
    dropFailed: set<ModelId>,
    released: bool,
    crowded: bool)

  /** The tables after an operation, and whether it returned (true) or raised or refused (false). */
  datatype Res = Res(s: State, ok: bool)

  function Count(s: State, id: ModelId): int {
    if id in s.active then s.active[id] else 0
  }

  function Live(s: State, id: ModelId): nat {
    if id in s.live then s.live[id] else 0
  }

  predicate IsLoaded(s: State, id: ModelId) {
    id in s.engines && s.engines[id].loaded
  }

  function Touch(s: State, id: ModelId): State {
    s.(lastUsed := s.lastUsed[id := s.now])
  }

  function Own(s: State, id: ModelId, e: Engine): State {
    s.(engines := s.engines[id := e], order := if id in s.engines then s.order else s.order + [id])
  }

  function Disown(s: State, id: ModelId): State {
    s.(engines := s.engines - {id}, order := Without(s.order, id))
  }

  function Without(ids: seq<ModelId>, id: ModelId): seq<ModelId> {
    if ids == [] then [] else (if ids[0] == id then [] else [ids[0]]) + Without(ids[1..], id)
  }

  /** `engine.unload()` on an owned engine. */
  function CallUnload(o: Oracle, s: State, id: ModelId): Res
    requires id in s.engines
  {
    var e := s.engines[id];
    var t := s.(calls := s.calls + 1);
    match o(s.calls)
    case Returns(_) => Res(t.(engines := s.engines[id := e.(loaded := false)]), true)
    case Raises(stays) => Res(t.(engines := s.engines[id := e.(loaded := e.loaded && stays)]), false)
  }

  /** `unload_model`; refusing a busy model and raising about it leave the tables alone alike. */
  function UnloadModel(o: Oracle, s: State, id: ModelId, force: bool): Res {
    if (Count(s, id) > 0 && !force) || id !in s.engines then Res(s, false)
    else
      var u := CallUnload(o, s, id);
      if !u.ok then u
      else Res(if force then u.s.(active := u.s.active[id := 0]) else u.s, true)
  }

  /** `drop_model`; with `raiseIfBusy` a busy model is an error and is not marked for rebuilding. */
  function DropModel(o: Oracle, s: State, id: ModelId, force: bool, raiseIfBusy: bool): Res {
    if Count(s, id) > 0 && !force then Res(if raiseIfBusy then s else s.(pending := s.pending + {id}), false)
    else if id !in s.engines then Res(s.(pending := s.pending - {id}), false)
    else
      var u := CallUnload(o, s, id);
      if !u.ok then Res(u.s.(pending := u.s.pending + {id}, dropFailed := u.s.dropFailed + {id}), false)
      else
        var t := Disown(u.s, id).(pending := u.s.pending - {id}, dropFailed := u.s.dropFailed - {id});
        Res(if force then t.(active := t.active[id := 0]) else t, true)
  }

  /** `_unload_other_loaded_models`, over the models still to look at. */
  function UnloadOthers(o: Oracle, s: State, target: ModelId, ids: seq<ModelId>): Res
    decreases ids
  {
    if ids == [] then Res(s, true)
    else if ids[0] == target || !IsLoaded(s, ids[0]) then UnloadOthers(o, s, target, ids[1..])
    else if Count(s, ids[0]) > 0 then Res(s, false)
    else
      var u := UnloadModel(o, s, ids[0], false);
      if u.ok then UnloadOthers(o, u.s, target, ids[1..]) else u
  }

  /** `_create_engine`, and taking ownership of what it returns. */
  function CreateEngine(o: Oracle, s: State, id: ModelId, hint: string): Res {
    var t := s.(calls := s.calls + 1, nextSerial := s.nextSerial + 1);
    match o(s.calls)
    case Raises(_) => Res(t, false)
    case Returns(healthy) => Res(Own(t, id, Engine(s.nextSerial, hint, false, healthy)), true)
  }

  /** `_discard_failed_load`: the count goes to zero and the engine goes, whether or not its clean-up raises. */
  function DiscardFailedLoad(o: Oracle, s: State, id: ModelId): State
    requires id in s.engines
  {
    Disown(CallUnload(o, s.(active := s.active[id := 0]), id).s, id)
  }

  function Loaded(s: State, id: ModelId, healthy: bool): State
    requires id in s.engines
  {
    Touch(s.(engines := s.engines[id := s.engines[id].(loaded := true, healthy := healthy)]), id)
  }

  function Called(s: State): State {
    s.(calls := s.calls + 1)
  }

  /** `_load_engine`: an engine that failed to load is cleaned up and disowned before the error goes on. */
  function LoadEngine(o: Oracle, s: State, id: ModelId): Res
    requires id in s.engines
  {
    AfterLoad(o, Called(s), id, o(s.calls))
  }

  /** What follows on `engine.load()`, by how that went. */
  function AfterLoad(o: Oracle, s: State, id: ModelId, how: Outcome): Res
    requires id in s.engines
  {
    match how
    case Returns(healthy) => Res(Loaded(s, id, healthy), true)
    case Raises(_) => Res(DiscardFailedLoad(o, s, id), false)
  }

  predicate NeedsReplacement(s: State, id: ModelId, hint: string) {
    id in s.engines && id == "moss" && hint != "" && s.engines[id].provider != "" && s.engines[id].provider != hint
  }

  /** The end of `get_engine`: `anew` says that no usable engine is left and one has to be created. */
  function CreateAndLoad(o: Oracle, s: State, id: ModelId, load: bool, hint: string, anew: bool): Res
    requires !anew ==> id in s.engines
  {
    var c := if anew then CreateEngine(o, s, id, hint) else Res(s, true);
    if !c.ok then c
    else if load && !c.s.engines[id].loaded then LoadEngine(o, c.s, id)
    else c
  }

  /** The part of `get_engine` after the other models have made room. */
  function GetRest(o: Oracle, r: State, id: ModelId, load: bool, hint: string, needsLoad: bool): Res {
    if NeedsReplacement(r, id, hint) then
      if Count(r, id) > 0 then Res(r, false)
      else
        var d := DropModel(o, r, id, false, true);
        var q := if load && !needsLoad then UnloadOthers(o, d.s, id, d.s.order) else Res(d.s, true);
        if !q.ok then q else CreateAndLoad(o, q.s, id, load, hint, true)
    else if id in r.engines && !r.engines[id].healthy then
      CreateAndLoad(o, DropModel(o, r, id, true, false).s, id, load, hint, true)
    else
      CreateAndLoad(o, r, id, load, hint, id !in r.engines)
  }

  function GetEngine(c: Config, o: Oracle, s: State, id: ModelId, load: bool, hint: string): Res {
    if id !in c.enabled || s.closed then Res(s, false)
    else
      var needsLoad := load && !IsLoaded(s, id);
      var r := if needsLoad then UnloadOthers(o, s, id, s.order) else Res(s, true);
      if r.ok then GetRest(o, r.s, id, load, hint, needsLoad) else r
  }

  /** `switch_model` frees the model it leaves, unless that is busy. */
  function MakeWay(o: Oracle, s: State, id: ModelId, unloadPrevious: bool): Res {
    if unloadPrevious && s.current != id && Count(s, s.current) <= 0 then UnloadModel(o, s, s.current, false)
    else Res(s, false)
  }

  /** When the target cannot be had, a model that was freed for it is loaded again; the error goes on either way. */
  function SwitchRest(c: Config, o: Oracle, u: Res, previous: ModelId, id: ModelId, hint: string, load: bool): Res {
    var g := GetEngine(c, o, u.s, id, load, hint);
    if g.ok then Res(g.s.(current := id), true)
    else if u.ok then Res(GetEngine(c, o, g.s, previous, true, "").s, false)
    else g
  }

  function SwitchModel(c: Config, o: Oracle, s: State, id: ModelId, hint: string, unloadPrevious: bool,
                       load: bool): Res {
    if id !in c.enabled || s.closed then Res(s, false)
    else SwitchRest(c, o, MakeWay(o, Touch(s, id), id, unloadPrevious), s.current, id, hint, load)
  }

  function SwitchForBorrow(c: Config, o: Oracle, s: State, id: ModelId, hint: string): Res {
    if id != s.current && c.unloadOnSwitch then SwitchModel(c, o, s, id, hint, true, true) else Res(s, true)
  }

  /** An unhealthy engine is dropped by force and replaced before it is handed out. */
  function ObtainRest(c: Config, o: Oracle, s: State, id: ModelId, hint: string): Res {
    var g := GetEngine(c, o, s, id, true, hint);
    if g.ok && id in g.s.engines && !g.s.engines[id].healthy
    then GetEngine(c, o, DropModel(o, g.s, id, true, false).s, id, true, hint) else g
  }

  /** The engine `borrow` is going to hand out. */
  function Obtain(c: Config, o: Oracle, s: State, id: ModelId, hint: string): Res {
    if id !in c.enabled || s.closed then Res(s, false)
    else
      var w := SwitchForBorrow(c, o, Touch(s, id), id, hint);
      if w.ok then ObtainRest(c, o, w.s, id, hint) else w
  }

  function Register(s: State, id: ModelId): State {
    s.(active := s.active[id := Count(s, id) + 1], live := s.live[id := Live(s, id) + 1])
  }

  /** `borrow` up to the point where the engine is handed out. */
  function BorrowEnter(c: Config, o: Oracle, s: State, id: ModelId, hint: string): Res {
    var h := Obtain(c, o, s, id, hint);
    if h.ok then Res(Register(h.s, id), true) else h
  }

  function Forget(s: State, id: ModelId): State {
    s.(active := s.active - {id}, lastUsed := s.lastUsed - {id})
  }

  function Max(a: int, b: int): int {
    if a < b then b else a
  }

  /** The books after a borrow has ended. */
  function Returned(s: State, id: ModelId): State
    requires Live(s, id) > 0
  {
    var t := s.(live := s.live[id := (Live(s, id) - 1) as nat]);
    if s.closed && id !in s.engines then Forget(t, id).(pending := t.pending - {id})
    else
      var u := t.(active := t.active[id := Max(0, Count(t, id) - 1)]);
      if s.closed then u else Touch(u, id)
  }

  /** The `finally` clause of `borrow`: the last one to leave carries out a drop that was put off. */
  function BorrowExit(o: Oracle, s: State, id: ModelId): State
    requires Live(s, id) > 0
  {
    var t := Returned(s, id);
    if !s.closed && Count(t, id) == 0 && id in t.pending
    then DropModel(o, t.(pending := t.pending - {id}), id, true, false).s
    else t
  }

  predicate IdleSkips(c: Config, s: State, id: ModelId) {
    (id == s.current && !c.unloadCurrent) || !IsLoaded(s, id) || Count(s, id) > 0
    || s.now - (if id in s.lastUsed then s.lastUsed[id] else 0) < c.idleTimeout
  }

  /** One idle pass, over the models still to look at. */
  function IdlePass(c: Config, o: Oracle, s: State, ids: seq<ModelId>): State
    decreases ids
  {
    if ids == [] || c.idleTimeout <= 0 then s
    else
      IdlePass(c, o, if IdleSkips(c, s, ids[0]) then s else UnloadModel(o, s, ids[0], false).s, ids[1..])
  }

  /** `unload_inactive`, over the models still to look at. */
  function UnloadInactive(o: Oracle, s: State, force: bool, includeCurrent: bool, ids: seq<ModelId>): State
    decreases ids
  {
    if ids == [] then s
    else
      var t := if ids[0] == s.current && !includeCurrent then s else UnloadModel(o, s, ids[0], force).s;
      UnloadInactive(o, t, force, includeCurrent, ids[1..])
  }

  // ---------- close_all, in the three parts between which the lock is free ----------

  function Snapshot(s: State): map<ModelId, nat> {
    map id | id in s.engines :: s.engines[id].serial
  }

  /** `_begin_close_all`; with nothing owned `close_all` returns true at once. */
  function CloseBegin(s: State): State
    requires s.job.NoJob?
  {
    if s.engines == map[] then s.(closed := true, released := true)
    else s.(closed := true, pending := {}, job := Job(Snapshot(s), {}, {}))
  }

  /** One engine of the snapshot is released; its unload is called whoever owns it by now. */
  function CloseRelease(o: Oracle, s: State, id: ModelId): State
    requires s.job.Job? && id in s.job.snapshot.Keys - s.job.succeeded - s.job.failed
  {
    var t := s.(calls := s.calls + 1);
    var u := if id in s.engines && s.engines[id].serial == s.job.snapshot[id] then CallUnload(o, s, id).s else t;
    if o(s.calls).Returns? then u.(job := s.job.(succeeded := s.job.succeeded + {id}))
    else u.(job := s.job.(failed := s.job.failed + {id}))
  }

  function WithoutAll(ids: seq<ModelId>, gone: set<ModelId>): seq<ModelId> {
    if ids == [] then [] else (if ids[0] in gone then [] else [ids[0]]) + WithoutAll(ids[1..], gone)
  }

  /** The released engines that are still the owned ones. */
  function Releasable(engines: map<ModelId, Engine>, job: Job): set<ModelId>
    requires job.Job?
  {
    set id | id in engines && id in job.succeeded && id in job.snapshot && engines[id].serial == job.snapshot[id]
  }

  /** `_finish_close_all` and the answer of `close_all`; a model the release did not get to counts as failed. */
  function CloseFinish(s: State): State
    requires s.job.Job?
  {
    var gone := Releasable(s.engines, s.job);
    var t := s.(engines := s.engines - gone, order := WithoutAll(s.order, gone),
                active := s.active - s.job.succeeded, lastUsed := s.lastUsed - s.job.succeeded, job := NoJob);
    t.(released := s.released || (s.job.snapshot.Keys <= s.job.succeeded && t.engines == map[]))
  }

  // ---------- runs ----------

  datatype Op =
    | Get(id: ModelId, load: bool, hint: string)
    | Switch(id: ModelId, hint: string, unloadPrevious: bool, load: bool)
    | Enter(id: ModelId, hint: string)
    | Exit(id: ModelId)
    | Unload(id: ModelId, force: bool)
    | Drop(id: ModelId, force: bool, raiseIfBusy: bool)
    | UnloadIdle(force: bool, includeCurrent: bool)
    | CancelRequest(id: ModelId, kill: bool)
    | Idle
    | Begin
    | Release(id: ModelId)
    | Finish
    // What happens to the manager from outside: time passes, an engine breaks down or loads itself.
    | Tick(d: nat)
    | SelfLoad(id: ModelId)
    | Decay(id: ModelId, staysLoaded: bool, healthy: bool)

  /** A borrowed engine that finds itself unloaded loads itself, without the manager's lock. */
  predicate CanSelfLoad(s: State, id: ModelId) {
    Live(s, id) > 0 && id in s.engines && !s.engines[id].loaded
  }

  predicate OtherLoaded(s: State, id: ModelId) {
    exists i :: i in s.engines && i != id && s.engines[i].loaded
  }

  function SelfLoadStep(o: Oracle, s: State, id: ModelId): State
    requires CanSelfLoad(s, id)
  {
    match o(s.calls)
    case Raises(_) => Called(s)
    case Returns(healthy) =>
      Called(s).(engines := s.engines[id := s.engines[id].(loaded := true, healthy := healthy)],
                 crowded := s.crowded || OtherLoaded(s, id))
  }

  function DecayStep(s: State, id: ModelId, staysLoaded: bool, healthy: bool): State {
    if id !in s.engines then s
    else
      var e := s.engines[id];
      s.(engines := s.engines[id := e.(loaded := e.loaded && staysLoaded, healthy := healthy)])
  }

  /** One atomic operation; one that is not possible changes nothing. */
  function Step(c: Config, o: Oracle, s: State, op: Op): State {
    match op
    case Get(id, load, hint) => GetEngine(c, o, s, id, load, hint).s
    case Switch(id, hint, unloadPrevious, load) => SwitchModel(c, o, s, id, hint, unloadPrevious, load).s
    case Enter(id, hint) => BorrowEnter(c, o, s, id, hint).s
    case Exit(id) => if Live(s, id) > 0 then BorrowExit(o, s, id) else s
    case Unload(id, force) => UnloadModel(o, s, id, force).s
    case Drop(id, force, raiseIfBusy) => DropModel(o, s, id, force, raiseIfBusy).s
    case UnloadIdle(force, includeCurrent) => UnloadInactive(o, s, force, includeCurrent, s.order)
    case CancelRequest(id, kill) => if kill && id in s.engines then DropModel(o, s, id, true, false).s else s
    case Idle => IdlePass(c, o, s, s.order)
    case Begin => if s.job.NoJob? then CloseBegin(s) else s
    case Release(id) =>
      if s.job.Job? && id in s.job.snapshot.Keys - s.job.succeeded - s.job.failed then CloseRelease(o, s, id) else s
    case Finish => if s.job.Job? then CloseFinish(s) else s
    case Tick(d) => s.(now := s.now + d)
    case SelfLoad(id) => if CanSelfLoad(s, id) then SelfLoadStep(o, s, id) else s
    case Decay(id, staysLoaded, healthy) => DecayStep(s, id, staysLoaded, healthy)
  }

  /** A manager at the start, with the engine it was given, if any. */
  function Start(model: ModelId, given: bool, loaded: bool, now: int): State {
    var engines := if given then map["kokoro" := Engine(0, "", loaded, true)] else map[];
    State(engines, if given then ["kokoro"] else [], map[], if given then map["kokoro" := now] else map[], {},
          if given then "kokoro" else model, false, NoJob, now, 0, 1, map[], {}, false, false)
  }

  function Run(c: Config, o: Oracle, s: State, ops: seq<Op>): State {
    if ops == [] then s else Step(c, o, Run(c, o, s, ops[..|ops| - 1]), ops[|ops| - 1])
  }
}

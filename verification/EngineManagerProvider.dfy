/** Which engine `get_engine` hands out: the one that is there, or a new one for the provider that was asked for. */
module EngineManagerProvider {
  import opened EngineManager

  /** The engine that is there will do: it is healthy, and nobody asks moss for another provider. */
  predicate WillDo(s: State, id: ModelId, hint: string) {
    && id in s.engines && s.engines[id].healthy
    && (id == "moss" && hint != "" && s.engines[id].provider != "" ==> s.engines[id].provider == hint)
  }

  /** The model's own entry has not been touched. */
  predicate Spared(s: State, t: State, id: ModelId) {
    && (id in s.engines <==> id in t.engines) && (id in s.engines ==> t.engines[id] == s.engines[id])
    && Count(t, id) == Count(s, id) && t.nextSerial == s.nextSerial
  }

  lemma UnloadSpares(o: Oracle, s: State, other: ModelId, id: ModelId)
    requires other != id
    ensures Spared(s, UnloadModel(o, s, other, false).s, id)
  {
  }

  lemma {:induction false} MakingRoomSpares(o: Oracle, s: State, id: ModelId, ids: seq<ModelId>)
    ensures Spared(s, UnloadOthers(o, s, id, ids).s, id)
    decreases ids
  {
    if ids != [] {
      if ids[0] == id || !IsLoaded(s, ids[0]) {
        MakingRoomSpares(o, s, id, ids[1..]);
      } else {
        UnloadSpares(o, s, ids[0], id);
        var u := UnloadModel(o, s, ids[0], false);
        if u.ok { MakingRoomSpares(o, u.s, id, ids[1..]); }
      }
    }
  }

  /** The engine is a new one, made for the provider that was asked for. */
  predicate MadeFor(s: State, t: State, id: ModelId, hint: string) {
    id in t.engines && t.engines[id].serial >= s.nextSerial && t.engines[id].provider == hint
  }

  /** The engine is the one that was there. */
  predicate Kept(s: State, t: State, id: ModelId) {
    && id in s.engines && id in t.engines
    && t.engines[id].serial == s.engines[id].serial && t.engines[id].provider == s.engines[id].provider
  }

  lemma CreatedIsMade(o: Oracle, s: State, id: ModelId, load: bool, hint: string)
    requires CreateAndLoad(o, s, id, load, hint, true).ok
    ensures MadeFor(s, CreateAndLoad(o, s, id, load, hint, true).s, id, hint)
  {
  }

  lemma LoadedIsKept(o: Oracle, s: State, id: ModelId, load: bool, hint: string)
    requires id in s.engines && CreateAndLoad(o, s, id, load, hint, false).ok
    ensures Kept(s, CreateAndLoad(o, s, id, load, hint, false).s, id)
  {
  }

  lemma CallKeepsSerials(o: Oracle, s: State, id: ModelId)
    requires id in s.engines
    ensures CallUnload(o, s, id).s.nextSerial == s.nextSerial
  {
  }

  lemma DropKeepsSerials(o: Oracle, s: State, id: ModelId, force: bool, raiseIfBusy: bool)
    ensures DropModel(o, s, id, force, raiseIfBusy).s.nextSerial == s.nextSerial
  {
    if id in s.engines { CallKeepsSerials(o, s, id); }
  }

  lemma RestGivesWhatWillDo(o: Oracle, r: State, id: ModelId, load: bool, hint: string, needsLoad: bool)
    requires GetRest(o, r, id, load, hint, needsLoad).ok
    ensures var t := GetRest(o, r, id, load, hint, needsLoad).s;
            if WillDo(r, id, hint) then Kept(r, t, id) else MadeFor(r, t, id, hint)
  {
    if NeedsReplacement(r, id, hint) {
      var d := DropModel(o, r, id, false, true).s;
      DropKeepsSerials(o, r, id, false, true);
      MakingRoomSpares(o, d, id, d.order);
      var q := if load && !needsLoad then UnloadOthers(o, d, id, d.order) else Res(d, true);
      CreatedIsMade(o, q.s, id, load, hint);
    } else if id in r.engines && !r.engines[id].healthy {
      DropKeepsSerials(o, r, id, true, false);
      CreatedIsMade(o, DropModel(o, r, id, true, false).s, id, load, hint);
    } else if id in r.engines {
      LoadedIsKept(o, r, id, load, hint);
    } else {
      CreatedIsMade(o, r, id, load, hint);
    }
  }

  /** Whatever it takes, what `get_engine` hands out is the engine that was there if that will do, and otherwise a new
      one for the provider that was asked for. */
  lemma GetGivesWhatWillDo(c: Config, o: Oracle, s: State, id: ModelId, load: bool, hint: string)
    requires GetEngine(c, o, s, id, load, hint).ok
    ensures var t := GetEngine(c, o, s, id, load, hint).s;
            if WillDo(s, id, hint) then Kept(s, t, id) else MadeFor(s, t, id, hint)
  {
    var needsLoad := load && !IsLoaded(s, id);
    var r := if needsLoad then UnloadOthers(o, s, id, s.order) else Res(s, true);
    MakingRoomSpares(o, s, id, s.order);
    RestGivesWhatWillDo(o, r.s, id, load, hint, needsLoad);
  }

  /** So moss never answers for another provider than the one asked for. */
  lemma MossIsOfTheProvider(c: Config, o: Oracle, s: State, load: bool, hint: string)
    requires hint != "" && GetEngine(c, o, s, "moss", load, hint).ok
    ensures var t := GetEngine(c, o, s, "moss", load, hint).s;
            "moss" in t.engines && t.engines["moss"].provider in {"", hint}
  {
    GetGivesWhatWillDo(c, o, s, "moss", load, hint);
  }

  /** As long as moss is in use its provider stays: asking for another one is refused and leaves the engine alone. */
  lemma BusyProvidersStay(c: Config, o: Oracle, s: State, load: bool, hint: string)
    requires "moss" in s.engines && Count(s, "moss") > 0
    requires hint != "" && s.engines["moss"].provider !in {"", hint}
    ensures var r := GetEngine(c, o, s, "moss", load, hint); !r.ok && Spared(s, r.s, "moss")
  {
    MakingRoomSpares(o, s, "moss", s.order);
  }
}

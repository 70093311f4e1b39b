/** The per-search event emitters: a store, created on first use and kept in
    a global, maps a search id to the emitter that live-search streams
    listen on; an update reads the search back and is emitted to the
    listeners, if there are any.

    An emitter is reduced to its number of 'update' listeners (registered
    by the streaming route, outside this model) and the payloads emitted on
    it. The two database reads of `getSearchPayload` are inputs: the search
    row, if any, and its result rows, joined with their jobs and ordered by
    creation time. */
module SearchEvents {
  import opened Wrappers

  /** A `searches` row, reduced to the columns the payload mirrors. */
  datatype SearchRecord = SearchRecord(id: string, metadata: Option<string>, status: string, valid: bool)

  /** A result row joined with its job; `details` stands for the other
      columns. */
  datatype ResultRow = ResultRow(id: string, jobId: string, status: string, details: string)

  datatype StreamPayload = StreamPayload(metadata: Option<string>, status: string, valid: bool,
                                         results: seq<ResultRow>, totalResults: nat)

  datatype SearchPayload = SearchPayload(record: SearchRecord, response: StreamPayload)

  /** An `EventEmitter` as far as the store uses it. */
  class Emitter {
    var updateListeners: nat
    var emitted: seq<StreamPayload>

    constructor ()
      ensures updateListeners == 0 && emitted == []
    {
      updateListeners := 0;
      emitted := [];
    }

    /** `emitter.emit("update", payload)`. */
    method Emit(payload: StreamPayload)
      modifies this
      ensures emitted == old(emitted) + [payload]
      ensures updateListeners == old(updateListeners)
    {
      emitted := emitted + [payload];
    }
  }

  /** `getSearchPayload`: nothing without a search row; otherwise the row
      and a response mirroring it, with every result row and their count. */
  function GetSearchPayload(record: Option<SearchRecord>, rows: seq<ResultRow>): (p: Option<SearchPayload>)
    ensures p.None? <==> record.None?
    ensures p.Some? ==> p.value.record == record.value
    ensures p.Some? ==> (p.value.response.metadata == record.value.metadata
                         && p.value.response.status == record.value.status
                         && p.value.response.valid == record.value.valid)
    ensures p.Some? ==> p.value.response.results == rows && p.value.response.totalResults == |rows|
  {
    match record
    case None => None
    case Some(rec) => Some(SearchPayload(rec, StreamPayload(rec.metadata, rec.status, rec.valid, rows, |rows|)))
  }

  /** The global holding the store: `storeCreated` is false until the first
      `getEmitterStore`. */
  class SearchEventsGlobal {
    var storeCreated: bool
    var emitters: map<string, Emitter>

    constructor ()
      ensures !storeCreated && emitters == map[]
    {
      storeCreated := false;
      emitters := map[];
    }

    /** The store as `getEmitterStore` finds it: the existing one, or a new
        empty one. */
    function Store(): (m: map<string, Emitter>)
      reads this
      ensures !storeCreated ==> m == map[]
    {
      if storeCreated then emitters else map[]
    }

    /** `getEmitterStore`: the store is created once, empty, and reused. */
    method GetEmitterStore() returns (store: map<string, Emitter>)
      modifies this
      ensures storeCreated
      ensures emitters == old(Store()) && store == emitters
    {
      if !storeCreated {
        storeCreated := true;
        emitters := map[];
      }
      store := emitters;
    }

    /** `getSearchEmitter`: the stored emitter of the search, or a new one
        with no listeners, stored under the id; no other entry changes. */
    method GetSearchEmitter(searchId: string) returns (e: Emitter)
      modifies this
      ensures storeCreated
      ensures searchId in old(Store()) ==> e == old(Store())[searchId] && emitters == old(Store())
      ensures searchId !in old(Store()) ==>
                fresh(e) && e.updateListeners == 0 && e.emitted == [] && emitters == old(Store())[searchId := e]
      ensures emitters.Keys == old(Store()).Keys + {searchId}
    {
      var store := GetEmitterStore();
      if searchId !in store {
        var emitter := new Emitter();
        emitters := emitters[searchId := emitter];
      }
      e := emitters[searchId];
    }

    /** `releaseSearchEmitter`: the entry goes only if it exists and nobody
        listens on it. */
    method ReleaseSearchEmitter(searchId: string)
      modifies this
      ensures storeCreated
      ensures searchId in old(Store()) && old(Store())[searchId].updateListeners == 0 ==>
                emitters == old(Store()) - {searchId}
      ensures !(searchId in old(Store()) && old(Store())[searchId].updateListeners == 0) ==>
                emitters == old(Store())
    {
      var store := GetEmitterStore();
      if searchId in store && store[searchId].updateListeners == 0 {
        emitters := emitters - {searchId};
      }
    }

    /** `emitSearchUpdate`: nothing is emitted, and null returned, unless the
        search's emitter exists with a listener and the search row exists;
        then the response is emitted on that emitter alone and returned. The
        store never gains an entry. */
    method EmitSearchUpdate(searchId: string, record: Option<SearchRecord>, rows: seq<ResultRow>)
      returns (r: Option<StreamPayload>)
      modifies this, Store().Values
      ensures storeCreated && emitters == old(Store())
      ensures var listened := searchId in emitters && old(emitters[searchId].updateListeners) > 0;
              !listened || record.None? ==> r.None? && unchanged(emitters.Values)
      ensures var listened := searchId in emitters && old(emitters[searchId].updateListeners) > 0;
              listened && record.Some? ==>
                r == Some(GetSearchPayload(record, rows).value.response)
                && emitters[searchId].emitted == old(emitters[searchId].emitted) + [r.value]
                && emitters[searchId].updateListeners == old(emitters[searchId].updateListeners)
                && forall id :: id in emitters && emitters[id] != emitters[searchId] ==> unchanged(emitters[id])
    {
      var store := GetEmitterStore();
      if searchId !in store || store[searchId].updateListeners == 0 {
        return None;
      }
      var emitter := store[searchId];
      var payload := GetSearchPayload(record, rows);
      if payload.None? {
        return None;
      }
      emitter.Emit(payload.value.response);
      return Some(payload.value.response);
    }
  }
}

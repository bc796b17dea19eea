/** `MarketCache` of market_scan_app.py: an in-memory map from market name to
    a cache entry, a dirty flag, and the file the map is flushed to. The file is
    modelled by the field `persisted`, the map as last written. */
module CacheStore {
  import opened Wrappers

  /** One record of the cache file. An entry with every field absent is the
      empty dict `{}` that `_ensure_entry` creates. */
  datatype CacheEntry = CacheEntry(itemNameId: Option<string>, lastPrice: Option<real>, updatedAt: Option<real>)

  const EmptyEntry := CacheEntry(None, None, None)

  /** `get_item_nameid` on a map: a missing entry, and an entry without an id
      (including the empty one), give `None`. */
  function LookupNameId(data: map<string, CacheEntry>, name: string): (r: Option<string>)
    ensures name !in data ==> r == None
    ensures name in data && data[name] == EmptyEntry ==> r == None
    ensures name in data ==> r == data[name].itemNameId
  {
    if name in data then data[name].itemNameId else None
  }

  /** The entry for `name`, created empty if there is none (`_ensure_entry`). */
  function EntryFor(data: map<string, CacheEntry>, name: string): CacheEntry {
    if name in data then data[name] else EmptyEntry
  }

  /** The map after `set_item_nameid(name, id)`: the id of `name` is `id`, its
      price fields are kept, and every other name is untouched. */
  function WithNameId(data: map<string, CacheEntry>, name: string, id: string): (d: map<string, CacheEntry>)
    ensures LookupNameId(d, name) == Some(id)
    ensures d.Keys == data.Keys + {name}
    ensures d[name].lastPrice == EntryFor(data, name).lastPrice
    ensures d[name].updatedAt == EntryFor(data, name).updatedAt
    ensures forall other :: other != name && other in data ==> d[other] == data[other]
  {
    data[name := EntryFor(data, name).(itemNameId := Some(id))]
  }

  /** The map after `set_price(name, price)` at time `now`: only `last_price` and
      `updated_at` of `name` change; its id and every other name are untouched. */
  function WithPrice(data: map<string, CacheEntry>, name: string, price: real, now: real): (d: map<string, CacheEntry>)
    ensures d.Keys == data.Keys + {name}
    ensures d[name].lastPrice == Some(price) && d[name].updatedAt == Some(now)
    ensures d[name].itemNameId == EntryFor(data, name).itemNameId
    ensures forall other :: other != name && other in data ==> d[other] == data[other]
    ensures forall n :: LookupNameId(d, n) == LookupNameId(data, n)
  {
    data[name := EntryFor(data, name).(lastPrice := Some(price), updatedAt := Some(now))]
  }

  /** What `flush` did: nothing (the cache was clean), wrote the file, or raised
      because writing failed. */
  datatype FlushOutcome = Clean | Written | WriteFailed

  class MarketCache {
    var data: map<string, CacheEntry>
    var dirty: bool
    /** The contents of the cache file. */
    var persisted: map<string, CacheEntry>

    /** `loaded` is what reading the cache file gave: its map, or `{}` when the
        file is missing or is not valid JSON. */
    constructor (loaded: map<string, CacheEntry>)
      ensures data == loaded && persisted == loaded && !dirty
    {
      data := loaded;
      persisted := loaded;
      dirty := false;
    }

    function GetItemNameId(name: string): (r: Option<string>)
      reads this
      ensures r == LookupNameId(data, name)
    {
      if name in data then data[name].itemNameId else None
    }

    method SetItemNameId(name: string, id: string)
      modifies this`data, this`dirty
      ensures data == WithNameId(old(data), name, id)
      ensures dirty
      ensures GetItemNameId(name) == Some(id)
    {
      var entry := if name in data then data[name] else EmptyEntry;
      data := data[name := entry.(itemNameId := Some(id))];
      dirty := true;
    }

    method SetPrice(name: string, price: real, now: real)
      modifies this`data, this`dirty
      ensures data == WithPrice(old(data), name, price, now)
      ensures dirty
      ensures GetItemNameId(name) == old(GetItemNameId(name))
    {
      var entry := if name in data then data[name] else EmptyEntry;
      data := data[name := entry.(lastPrice := Some(price), updatedAt := Some(now))];
      dirty := true;
    }

    /** `flush`. `writeSucceeds` is whether writing the file would succeed; a
        failed write raises out of `flush` and leaves the cache dirty. */
    method Flush(writeSucceeds: bool) returns (outcome: FlushOutcome)
      modifies this`dirty, this`persisted
      ensures data == old(data)
      ensures !old(dirty) ==> outcome == Clean && !dirty && persisted == old(persisted)
      ensures old(dirty) && writeSucceeds ==> outcome == Written && !dirty && persisted == data
      ensures old(dirty) && !writeSucceeds ==> outcome == WriteFailed && dirty && persisted == old(persisted)
    {
      if !dirty {
        return Clean;
      }
      if !writeSucceeds {
        return WriteFailed;
      }
      persisted := data;
      dirty := false;
      outcome := Written;
    }
  }
}

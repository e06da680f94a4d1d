/** The short-lived cache in front of the read functions (apps/data-api/src/rpc-cache.ts). A promise is the
    load that made it, named by its position among the loads that were started. */
module RpcCache {
  import opened Basics
  import opened InsertionOrder
  import Json

  datatype Key = Key(text: string)

  type LoadId = nat

  /** `key` is what the load's rejection handler captured. */
  datatype Load = Load(key: Key, fn: string, args: Json.Value, at: int)

  datatype Entry = Entry(expires: int, load: LoadId)

  datatype Limits = Limits(ttlMs: nat, maxEntries: nat)

  /** `rejected` and `evicted` are history: the loads whose entry was dropped, and why. */
  datatype Cache = Cache(
    entries: Table<Key, Entry>,
    loads: seq<Load>,
    rejected: set<LoadId>,
    evicted: set<LoadId>)

  datatype Event =
    | Get(fn: string, args: Json.Value, at: int)
    | Reject(load: LoadId)

  const SEPARATOR: string := "\U{0}"

  function KeyOf(fn: string, args: Json.Value): Key {
    Key(fn + SEPARATOR + Json.Stringify(args))
  }

  function Fresh(): Cache {
    Cache(Empty(), [], {}, {})
  }

  /** An entry that has not expired. */
  predicate Hits(c: Cache, key: Key, t: int) {
    key in c.entries.at && c.entries.at[key].expires > t
  }

  /** The load whose promise `get` returns. */
  function Answer(c: Cache, e: Event): LoadId
    requires e.Get?
  {
    var key := KeyOf(e.fn, e.args);
    if Hits(c, key, e.at) then c.entries.at[key].load else |c.loads|
  }

  function LoadsOf(m: Table<Key, Entry>): set<LoadId> {
    set k | k in m.at :: m.at[k].load
  }

  /** An expired entry is replaced at the young end, and the oldest entries are evicted. */
  function Loaded(l: Limits, c: Cache, load: Load): Cache {
    var all := Set(Delete(c.entries, load.key), load.key, Entry(load.at + l.ttlMs, |c.loads|));
    var kept := Trim(all, l.maxEntries);
    Cache(kept, c.loads + [load], c.rejected, c.evicted + (LoadsOf(all) - LoadsOf(kept)))
  }

  /** The rejection handler deletes the entry only while it is still the one this load made. */
  function Rejected(c: Cache, load: LoadId): Cache
    requires load < |c.loads|
  {
    var key := c.loads[load].key;
    c.(entries := if key in c.entries.at && c.entries.at[key].load == load then Delete(c.entries, key) else c.entries,
       rejected := c.rejected + {load})
  }

  function Step(l: Limits, c: Cache, e: Event): Cache {
    match e
    case Get(fn, args, at) =>
      var key := KeyOf(fn, args);
      if Hits(c, key, at) then c else Loaded(l, c, Load(key, fn, args, at))
    case Reject(load) => if load < |c.loads| then Rejected(c, load) else c
  }

  function Run(l: Limits, events: seq<Event>): Cache {
    if events == [] then Fresh() else Step(l, Run(l, events[..|events| - 1]), events[|events| - 1])
  }

  class Store {
    const limits: Limits
    var cache: Cache

    constructor (limits: Limits)
      ensures this.limits == limits && cache == Fresh()
    {
      this.limits, cache := limits, Fresh();
    }

    method Get(fn: string, args: Json.Value, t: int) returns (value: LoadId)
      requires InsertionOrder.Valid(cache.entries)
      modifies this
      ensures InsertionOrder.Valid(cache.entries)
      ensures value == Answer(old(cache), Event.Get(fn, args, t))
      ensures cache == Step(limits, old(cache), Event.Get(fn, args, t))
    {
      var key := KeyOf(fn, args);
      if key in cache.entries.at && cache.entries.at[key].expires > t {
        return cache.entries.at[key].load;
      }
      value := |cache.loads|;
      Insert(Load(key, fn, args, t));
    }

    /** The part of `get` that starts a load. */
    method Insert(load: Load)
      requires InsertionOrder.Valid(cache.entries)
      modifies this
      ensures InsertionOrder.Valid(cache.entries)
      ensures cache == Loaded(limits, old(cache), load)
    {
      var key, entries := load.key, cache.entries;
      if key in entries.at {
        entries := Delete(entries, key);
      }
      DeleteIsValid(cache.entries, key);
      SetIsValid(entries, key, Entry(load.at + limits.ttlMs, |cache.loads|));
      entries := Set(entries, key, Entry(load.at + limits.ttlMs, |cache.loads|));
      TrimKeepsNewest(entries, limits.maxEntries);
      var kept := Evict(entries, limits.maxEntries);
      cache := Cache(kept, cache.loads + [load], cache.rejected,
                     cache.evicted + (LoadsOf(entries) - LoadsOf(kept)));
    }

    method OnRejected(load: LoadId)
      requires InsertionOrder.Valid(cache.entries) && load < |cache.loads|
      modifies this
      ensures InsertionOrder.Valid(cache.entries)
      ensures cache == Step(limits, old(cache), Reject(load))
    {
      var key := cache.loads[load].key;
      DeleteIsValid(cache.entries, key);
      cache := cache.(rejected := cache.rejected + {load});
      if key in cache.entries.at && cache.entries.at[key].load == load {
        cache := cache.(entries := Delete(cache.entries, key));
      }
    }
  }

  /** Walks the keys as they stood and deletes until few enough are left. */
  method Evict(entries: Table<Key, Entry>, max: nat) returns (kept: Table<Key, Entry>)
    requires InsertionOrder.Valid(entries)
    ensures kept == Trim(entries, max)
  {
    kept := entries;
    for i := 0 to |entries.order|
      invariant InsertionOrder.Valid(kept)
      invariant kept.order == entries.order[i..]
      invariant Trim(kept, max) == Trim(entries, max)
    {
      if |kept.order| <= max {
        break;
      }
      DeleteFirst(kept);
      kept := Delete(kept, entries.order[i]);
    }
  }
}

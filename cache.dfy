/**
 * cache.go: cache keys of the form `table:id`, the `Cache` and `Uncache`
 * callbacks that keep the shared cache in step with the store, and
 * `RegisterCacher`, which installs the shared cache and hooks the callbacks
 * into the database's create, update, query and delete operations.
 *
 * `Backend` holds the package's global state: the database handle (`db`,
 * crud_gorm.go) over the table of one resource type, the shared cache
 * (`SharedCache`) and the callbacks registered on the database. Its
 * First/Insert/Save/Remove are the GORM operations the handlers call, with
 * the registered callbacks running around them.
 */
module Caching {
  import opened Wrappers
  import opened Records
  import Decimal

  /** `DefaultCacheKey(name, id)`: the name, a colon, and the `%v` text of the id. */
  function DefaultCacheKey(name: string, id: string): (key: string)
    ensures ':' !in name ==> SplitCacheKey(key) == Some((name, id))
  {
    var key := name + ":" + id;
    if ':' !in name then SplitDefaultKey(name, id); key else key
  }

  /** A key read back: the text before its first colon, and the text after it. */
  function SplitCacheKey(key: string): (r: Option<(string, string)>)
    ensures r.Some? ==> ':' !in r.value.0 && key == r.value.0 + ":" + r.value.1
    ensures r.None? ==> ':' !in key
    decreases |key|
  {
    if key == [] then None
    else if key[0] == ':' then Some(([], key[1..]))
    else
      match SplitCacheKey(key[1..])
      case None => None
      case Some((name, id)) => Some(([key[0]] + name, id))
  }

  lemma {:induction false} SplitDefaultKey(name: string, id: string)
    requires ':' !in name
    ensures SplitCacheKey(name + ":" + id) == Some((name, id))
    decreases |name|
  {
    if name != [] {
      SplitDefaultKey(name[1..], id);
      var key := name + ":" + id;
      assert key[0] == name[0] != ':';
      assert key[1..] == name[1..] + ":" + id;
      assert [name[0]] + name[1..] == name;
    }
  }

  /** Two colon-free names never share a key, whatever the ids. */
  lemma DefaultCacheKeyInjective(name1: string, id1: string, name2: string, id2: string)
    requires ':' !in name1 && ':' !in name2
    requires DefaultCacheKey(name1, id1) == DefaultCacheKey(name2, id2)
    ensures name1 == name2 && id1 == id2
  {
  }

  /** `CacheKey(resource)` / `cacheKeyFromScope`: the key of the row with primary key `id` in `table`. */
  function CacheKey(table: string, id: int): (key: string)
    ensures ':' !in table ==> SplitCacheKey(key) == Some((table, Decimal.FormatInt(id)))
  {
    DefaultCacheKey(table, Decimal.FormatInt(id))
  }

  /** Distinct rows of one table, or rows of distinct tables, have distinct keys. */
  lemma CacheKeyInjective(table1: string, id1: int, table2: string, id2: int)
    requires ':' !in table1 && ':' !in table2
    requires CacheKey(table1, id1) == CacheKey(table2, id2)
    ensures table1 == table2 && id1 == id2
  {
    Decimal.FormatIntInjective(id1, id2);
  }

  /**
   * The primary key `db.First(resource, id)` looks up for a textual id: an
   * all-digit text stands for its value; any other text finds nothing here.
   */
  function TextKey(idText: string): (k: Option<int>)
    ensures k.Some? <==> idText != [] && Decimal.AllDigits(idText)
    ensures k.Some? ==> k.value == Decimal.DigitsValue(idText) && k.value >= 0
  {
    if idText != [] && Decimal.AllDigits(idText) then Some(Decimal.DigitsValue(idText)) else None
  }

  /** A key in the cache belongs to `table` when the text before its first colon is the table name. */
  predicate OwnKey(table: string, key: string) {
    SplitCacheKey(key).Some? && SplitCacheKey(key).value.0 == table
  }

  /** The row a key of `table` names, when its id text is the `%v` text of a non-negative id. */
  function CachedId(table: string, key: string): Option<int> {
    match SplitCacheKey(key)
    case None => None
    case Some((name, text)) =>
      if name == table && Decimal.AllDigits(text) && Decimal.NoLeadingZero(text)
      then Some(Decimal.DigitsValue(text)) else None
  }

  lemma CachedIdOfKey(table: string, id: int)
    requires ':' !in table && id >= 0
    ensures OwnKey(table, CacheKey(table, id))
    ensures CachedId(table, CacheKey(table, id)) == Some(id)
  {
  }

  lemma CachedIdKey(table: string, key: string)
    requires CachedId(table, key).Some?
    ensures key == CacheKey(table, CachedId(table, key).value)
  {
    var (name, text) := SplitCacheKey(key).value;
    Decimal.FormatDigitsValue(text);
  }

  /**
   * The cache never disagrees with the store: every entry under a key of
   * `table` is under the canonical key of a stored row, and holds that row.
   * Entries of other tables are not constrained.
   */
  ghost predicate CoherentMaps(table: string, store: map<int, Record>, cache: map<string, Record>) {
    forall k :: k in cache && OwnKey(table, k) ==>
      && CachedId(table, k).Some?
      && CachedId(table, k).value in store
      && cache[k] == store[CachedId(table, k).value]
  }

  /** Caching a stored row under its key keeps the cache coherent. */
  lemma CacheStoredRow(table: string, store: map<int, Record>, cache: map<string, Record>, id: int)
    requires ':' !in table && id >= 0 && id in store
    requires CoherentMaps(table, store, cache)
    ensures CoherentMaps(table, store, cache[CacheKey(table, id) := store[id]])
  {
    CachedIdOfKey(table, id);
  }

  /** Dropping any entry keeps the cache coherent. */
  lemma UncacheKey(table: string, store: map<int, Record>, cache: map<string, Record>, key: string)
    requires CoherentMaps(table, store, cache)
    ensures CoherentMaps(table, store, cache - {key})
  {
  }

  /** Changing or removing a row the cache holds no entry for keeps the cache coherent. */
  lemma StoreChangeUncached(table: string, store: map<int, Record>, store': map<int, Record>,
                            cache: map<string, Record>, id: int)
    requires ':' !in table && id >= 0
    requires CoherentMaps(table, store, cache)
    requires CacheKey(table, id) !in cache
    requires forall k :: k in store && k != id ==> k in store' && store'[k] == store[k]
    ensures CoherentMaps(table, store', cache)
  {
    forall k | k in cache && OwnKey(table, k)
      ensures CachedId(table, k).Some? && CachedId(table, k).value in store'
      ensures cache[k] == store'[CachedId(table, k).value]
    {
      CachedIdKey(table, k);
    }
  }

  /**
   * A cache hit in a coherent cache is the stored row: the id text of the key
   * `Read` looks up is the canonical text of a stored primary key, and the
   * entry is that row.
   */
  lemma HitIsStored(table: string, store: map<int, Record>, cache: map<string, Record>, idText: string)
    requires ':' !in table
    requires forall k :: k in store ==> k > 0
    requires CoherentMaps(table, store, cache)
    requires DefaultCacheKey(table, idText) in cache
    ensures TextKey(idText).Some? && TextKey(idText).value in store
    ensures cache[DefaultCacheKey(table, idText)] == store[TextKey(idText).value]
  {
    var key := DefaultCacheKey(table, idText);
    assert OwnKey(table, key);
  }

  /** The cache after a row is loaded, created or saved: the callback caches it when registered. */
  function Cached(on: bool, table: string, cache: map<string, Record>, r: Record): map<string, Record> {
    if on then cache[CacheKey(table, r.id) := r] else cache
  }

  /** Where a callback is hooked into GORM's chain of callbacks. */
  datatype Operation = CreateOp | UpdateOp | QueryOp | DeleteOp
  datatype Timing = Before(anchor: string) | After(anchor: string)
  datatype Hook = CacheHook | UncacheHook
  datatype Callback = Callback(name: string, op: Operation, timing: Timing, hook: Hook)

  /** The four callbacks `RegisterCacher` registers. */
  const CacheCallbacks: set<Callback> := {
    Callback("goal:cache_after_create", CreateOp, After("gorm:after_create"), CacheHook),
    Callback("goal:cache_after_update", UpdateOp, After("gorm:after_update"), CacheHook),
    Callback("goal:cache_after_query", QueryOp, After("gorm:after_query"), CacheHook),
    Callback("goal:uncache_after_delete", DeleteOp, Before("gorm:before_delete"), UncacheHook)
  }

  class Backend {
    /** The resource type whose table the store holds. */
    const schema: Schema
    /** `db != nil`. */
    var dbReady: bool
    /** The table: primary key to row. */
    var store: map<int, Record>
    /** The next primary key the database assigns to a row created without one. */
    var nextId: int
    /** `SharedCache != nil`. */
    var cacheOn: bool
    /** The contents of the shared cache. */
    var cache: map<string, Record>
    /** Callbacks registered on the database. */
    var callbacks: set<Callback>

    ghost predicate Valid()
      reads this
    {
      && ':' !in schema.table
      && nextId > 0
      && (forall k :: k in store ==> 0 < k < nextId && store[k].id == k)
      && (callbacks == {} || callbacks == CacheCallbacks)
      && (callbacks != {} ==> cacheOn && dbReady)
    }

    /** The cache callbacks run around the database's operations. */
    predicate Caching()
      reads this
    {
      callbacks == CacheCallbacks
    }

    ghost predicate Coherent()
      reads this
    {
      CoherentMaps(schema.table, store, cache)
    }

    constructor (schema: Schema)
      requires ':' !in schema.table
      ensures Valid() && Coherent()
      ensures this.schema == schema && !dbReady && store == map[] && nextId == 1
      ensures !cacheOn && cache == map[] && callbacks == {}
    {
      this.schema := schema;
      dbReady := false;
      store := map[];
      nextId := 1;
      cacheOn := false;
      cache := map[];
      callbacks := {};
    }

    /** `InitGormDb`: the database handle is installed. */
    method InitGormDb()
      requires Valid()
      modifies this`dbReady
      ensures Valid() && dbReady
    {
      dbReady := true;
    }

    /**
     * `RegisterCacher(cache)`: installs `cacher` as the shared cache (None is
     * nil) and, only when it is not nil and the database is installed,
     * registers the four cache callbacks.
     */
    method RegisterCacher(cacher: Option<map<string, Record>>)
      requires Valid()
      requires cacher.Some? || callbacks == {}
      modifies this`cacheOn, this`cache, this`callbacks
      ensures Valid()
      ensures cacheOn == cacher.Some?
      ensures cache == if cacher.Some? then cacher.value else old(cache)
      ensures callbacks == if cacher.Some? && dbReady then old(callbacks) + CacheCallbacks else old(callbacks)
    {
      cacheOn := cacher.Some?;
      if cacher.Some? {
        cache := cacher.value;
        if dbReady {
          callbacks := callbacks + CacheCallbacks;
        }
      }
    }

    /** The `Cache` callback: the row is written under its key; every other key keeps its entry. */
    method Cache(r: Record)
      requires Valid() && cacheOn
      modifies this`cache
      ensures cache == old(cache)[CacheKey(schema.table, r.id) := r]
      ensures old(Coherent()) && r.id in store && store[r.id] == r ==> Coherent()
    {
      if Coherent() && r.id in store && store[r.id] == r {
        CacheStoredRow(schema.table, store, cache, r.id);
      }
      cache := cache[CacheKey(schema.table, r.id) := r];
    }

    /**
     * The `Uncache` callback: the entry under the key of row `id` is gone;
     * every other key keeps its entry. (The row is reloaded first, which
     * leaves its key as it was.)
     */
    method Uncache(id: int)
      requires Valid() && cacheOn
      modifies this`cache
      ensures cache == old(cache) - {CacheKey(schema.table, id)}
      ensures old(Coherent()) ==> Coherent()
    {
      if Coherent() {
        UncacheKey(schema.table, store, cache, CacheKey(schema.table, id));
      }
      cache := cache - {CacheKey(schema.table, id)};
    }

    /**
     * `db.First(resource, id)`: the row with that key, if any; the query
     * callback caches it. A read the store reports as failed (`readFault`)
     * finds nothing and runs no callback.
     */
    method First(id: int, readFault: bool) returns (found: Option<Record>)
      requires Valid()
      modifies this`cache
      ensures found == if !readFault && id in store then Some(store[id]) else None
      ensures cache == if found.Some? && Caching() then old(cache)[CacheKey(schema.table, id) := found.value] else old(cache)
      ensures old(Coherent()) ==> Coherent()
    {
      if !readFault && id in store {
        found := Some(store[id]);
        if Caching() {
          Cache(store[id]);
        }
      } else {
        found := None;
      }
    }

    /** A row whose key is already taken cannot be inserted. */
    predicate Taken(r: Record)
      reads this
    {
      r.id != 0 && r.id in store
    }

    /** The key the database gives a new row: its own, or the next free one when it has none. */
    function AssignedId(r: Record): int
      reads this
    {
      if r.id == 0 then nextId else r.id
    }

    /**
     * `db.Create(resource)`: fails when the store reports an error (`fault`)
     * or the row's key is taken; otherwise the row is stored under its key
     * or a fresh one, and the create callback caches it.
     */
    method Insert(r: Record, fault: bool) returns (saved: Option<Record>)
      requires Valid()
      modifies this`store, this`nextId, this`cache
      ensures Valid()
      ensures saved.None? <==> fault || old(Taken(r))
      ensures saved.None? ==> store == old(store) && nextId == old(nextId) && cache == old(cache)
      ensures saved.Some? ==>
        && saved.value == r.(id := old(AssignedId(r)))
        && saved.value.id !in old(store)
        && store == old(store)[saved.value.id := saved.value]
        && cache == if Caching() then old(cache)[CacheKey(schema.table, saved.value.id) := saved.value] else old(cache)
      ensures old(Coherent()) ==> Coherent()
    {
      if fault || Taken(r) {
        return None;
      }
      var row := r.(id := AssignedId(r));
      if Coherent() {
        assert CacheKey(schema.table, row.id) !in cache by {
          if CacheKey(schema.table, row.id) in cache {
            CachedIdOfKey(schema.table, row.id);
          }
        }
        StoreChangeUncached(schema.table, store, store[row.id := row], cache, row.id);
      }
      store := store[row.id := row];
      if row.id >= nextId {
        nextId := row.id + 1;
      }
      if Caching() {
        Cache(row);
      }
      saved := Some(row);
    }

    /**
     * `db.Save(resource)` on a stored row: fails when the store reports an
     * error; otherwise the row replaces the stored one and the update
     * callback caches it.
     */
    method Save(r: Record, fault: bool) returns (ok: bool)
      requires Valid() && r.id in store
      modifies this`store, this`cache
      ensures Valid()
      ensures ok == !fault
      ensures !ok ==> store == old(store) && cache == old(cache)
      ensures ok ==> store == old(store)[r.id := r]
      ensures ok ==> cache == if Caching() then old(cache)[CacheKey(schema.table, r.id) := r] else old(cache)
      ensures old(Coherent()) && (Caching() || CacheKey(schema.table, r.id) !in old(cache)) ==> Coherent()
    {
      if fault {
        return false;
      }
      if Coherent() && Caching() {
        UncacheKey(schema.table, store, cache, CacheKey(schema.table, r.id));
        StoreChangeUncached(schema.table, store, store[r.id := r], cache - {CacheKey(schema.table, r.id)}, r.id);
        CacheStoredRow(schema.table, store[r.id := r], cache - {CacheKey(schema.table, r.id)}, r.id);
        assert cache - {CacheKey(schema.table, r.id)} + map[CacheKey(schema.table, r.id) := r]
            == cache[CacheKey(schema.table, r.id) := r];
      } else if Coherent() && CacheKey(schema.table, r.id) !in cache {
        StoreChangeUncached(schema.table, store, store[r.id := r], cache, r.id);
      }
      store := store[r.id := r];
      if Caching() {
        cache := cache[CacheKey(schema.table, r.id) := r];
      }
      ok := true;
    }

    /**
     * `db.Delete(resource, id)`: the delete callback uncaches the row's key
     * first; then the row is removed, unless the store reports an error.
     * Removing a key that is not stored is no error.
     */
    method Remove(id: int, fault: bool) returns (ok: bool)
      requires Valid()
      modifies this`store, this`cache
      ensures Valid()
      ensures ok == !fault
      ensures cache == if Caching() then old(cache) - {CacheKey(schema.table, id)} else old(cache)
      ensures store == if ok then old(store) - {id} else old(store)
      ensures old(Coherent()) && (Caching() || CacheKey(schema.table, id) !in old(cache)) ==> Coherent()
    {
      if Caching() {
        Uncache(id);
      }
      if fault {
        return false;
      }
      if Coherent() && id >= 0 && CacheKey(schema.table, id) !in cache {
        StoreChangeUncached(schema.table, store, store - {id}, cache, id);
      }
      store := store - {id};
      ok := true;
    }
  }
}

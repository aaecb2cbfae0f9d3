/**
 * crud_gorm.go: the four handlers over the database and the shared cache.
 * Each returns an HTTP status and the resource to render. The request is
 * known through what the handler reads from it: the route's `id` variable
 * (None when the route has none), the decoded body (None when it cannot be
 * read or decoded), and the verdict of `CanPerform` on a row, which is a
 * parameter of the model. `fault` stands for an error the store reports on
 * a write, `readFault` for one it reports on the `db.First` read.
 */
module CrudGorm {
  import opened Wrappers
  import opened Records
  import opened Caching
  import Revision

  datatype Reply = Reply(status: int, body: Option<Record>)

  /** The row `db.First(resource, id)` loads for a textual id, if any. */
  function Lookup(store: map<int, Record>, idText: string): Option<Record> {
    match TextKey(idText)
    case None => None
    case Some(k) => if k in store then Some(store[k]) else None
  }

  /** What that `db.First` yields when the store may report an error on the read. */
  function Loaded(store: map<int, Record>, idText: string, readFault: bool): Option<Record> {
    if readFault then None else Lookup(store, idText)
  }

  /** The outcome of the permission check on a row the handler returns. */
  function Authorized(r: Record, allowed: bool): Reply {
    if allowed then Reply(200, Some(r)) else Reply(403, None)
  }

  /** A read served from the cache: it is installed and holds the key `Read` builds from the id text. */
  predicate Hit(cacheOn: bool, cache: map<string, Record>, table: string, idText: string) {
    cacheOn && DefaultCacheKey(table, idText) in cache
  }

  /** The body's revision is not the stored one, for a resource type that implements `Revisioner`. */
  predicate Conflict(schema: Schema, current: Record, p: Patch) {
    schema.revisioned && !Revision.CanMerge(current, Decoded(p))
  }

  /**
   * `Read`: 400 without an id; otherwise the cached row when the cache holds
   * its key, else the row loaded from the store (500 when there is none or
   * the read fails), which is then cached; 403 unless `CanPerform` allows
   * reading it. Over a coherent cache, a row it returns is always the
   * stored row.
   */
  method Read(b: Backend, id: Option<string>, readFault: bool,
              canPerform: (Record, bool) -> bool) returns (reply: Reply)
    requires b.Valid() && b.dbReady
    modifies b`cache
    ensures b.Valid()
    ensures id.None? ==> reply == Reply(400, None) && b.cache == old(b.cache)
    ensures id.Some? && Hit(b.cacheOn, old(b.cache), b.schema.table, id.value) ==>
      var r := old(b.cache)[DefaultCacheKey(b.schema.table, id.value)];
      reply == Authorized(r, canPerform(r, true)) && b.cache == old(b.cache)
    ensures id.Some? && !Hit(b.cacheOn, old(b.cache), b.schema.table, id.value) ==>
      match Loaded(b.store, id.value, readFault)
      case None => reply == Reply(500, None) && b.cache == old(b.cache)
      case Some(r) =>
        && reply == Authorized(r, canPerform(r, true))
        && b.cache == Cached(b.cacheOn, b.schema.table, old(b.cache), r)
    ensures old(b.Coherent()) ==> b.Coherent()
    ensures old(b.Coherent()) && reply.status == 200 ==> id.Some? && reply.body == Lookup(b.store, id.value)
  {
    if id.None? {
      return Reply(400, None);
    }
    var idText := id.value;
    if b.cacheOn {
      var key := DefaultCacheKey(b.schema.table, idText);
      if key in b.cache {
        var r := b.cache[key];
        if b.Coherent() {
          HitIsStored(b.schema.table, b.store, b.cache, idText);
        }
        return Authorized(r, canPerform(r, true));
      }
    }
    var k := TextKey(idText);
    if k.None? {
      return Reply(500, None);
    }
    var found := b.First(k.value, readFault);
    if found.None? {
      return Reply(500, None);
    }
    var r := found.value;
    if b.cacheOn {
      b.Cache(r);
    }
    reply := Authorized(r, canPerform(r, true));
  }

  /**
   * `Create`: the body is decoded into `resource`, the struct the caller
   * hands in (which keeps whatever an earlier request left in it); 500 when
   * the body cannot be decoded or the store refuses the row; otherwise the
   * row is stored under its own or a fresh key and returned with 200. No
   * permission check is made.
   */
  method Create(b: Backend, resource: Record, body: Option<Patch>, fault: bool) returns (reply: Reply)
    requires b.Valid() && b.dbReady
    modifies b`store, b`nextId, b`cache
    ensures b.Valid()
    ensures body.None? || fault || old(b.Taken(Overlay(resource, body.value))) ==>
      reply == Reply(500, None) && b.store == old(b.store) && b.nextId == old(b.nextId) && b.cache == old(b.cache)
    ensures body.Some? && !fault && !old(b.Taken(Overlay(resource, body.value))) ==>
      var row := Overlay(resource, body.value).(id := old(b.AssignedId(Overlay(resource, body.value))));
      && reply == Reply(200, Some(row))
      && row.id !in old(b.store)
      && b.store == old(b.store)[row.id := row]
      && b.cache == Cached(b.Caching(), b.schema.table, old(b.cache), row)
    ensures old(b.Coherent()) ==> b.Coherent()
  {
    if body.None? {
      return Reply(500, None);
    }
    var saved := b.Insert(Overlay(resource, body.value), fault);
    if saved.None? {
      return Reply(500, None);
    }
    reply := Reply(200, saved);
  }

  /**
   * `Update`: 400 without an id; 500 when the body cannot be decoded, no
   * row is stored under the id or the read fails; 403 unless `CanPerform`
   * allows writing the row; 409, with the stored row, when the body's
   * revision is not the stored one; otherwise the body is merged into the stored row, keeping
   * its primary key, and saved (500 when the store refuses it).
   */
  method Update(b: Backend, id: Option<string>, body: Option<Patch>, readFault: bool, fault: bool,
                canPerform: (Record, bool) -> bool) returns (reply: Reply)
    requires b.Valid() && b.dbReady
    modifies b`store, b`cache
    ensures b.Valid()
    ensures id.None? || body.None? || Loaded(old(b.store), id.value, readFault).None? ==>
      && reply == Reply(if id.None? then 400 else 500, None)
      && b.store == old(b.store) && b.cache == old(b.cache)
    ensures id.Some? && body.Some? && Loaded(old(b.store), id.value, readFault).Some? ==>
      var current := Loaded(old(b.store), id.value, readFault).value;
      var loaded := Cached(b.Caching(), b.schema.table, old(b.cache), current);
      var merged := Merge(current, body.value);
      && (!canPerform(current, false) ==> reply == Reply(403, None) && b.store == old(b.store) && b.cache == loaded)
      && (canPerform(current, false) && Conflict(b.schema, current, body.value) ==>
            reply == Reply(409, Some(current)) && b.store == old(b.store) && b.cache == loaded)
      && (canPerform(current, false) && !Conflict(b.schema, current, body.value) && fault ==>
            reply == Reply(500, None) && b.store == old(b.store) && b.cache == loaded)
      && (canPerform(current, false) && !Conflict(b.schema, current, body.value) && !fault ==>
            && reply == Reply(200, Some(merged))
            && b.store == old(b.store)[current.id := merged]
            && b.cache == Cached(b.Caching(), b.schema.table, old(b.cache), merged))
    ensures old(b.Coherent()) && b.Caching() ==> b.Coherent()
  {
    if id.None? {
      return Reply(400, None);
    }
    if body.None? {
      return Reply(500, None);
    }
    var k := TextKey(id.value);
    if k.None? {
      return Reply(500, None);
    }
    var found := b.First(k.value, readFault);
    if found.None? {
      return Reply(500, None);
    }
    var current := found.value;
    if !canPerform(current, false) {
      return Reply(403, None);
    }
    if b.schema.revisioned && !Revision.CanMerge(current, Decoded(body.value)) {
      return Reply(409, Some(current));
    }
    var merged := Merge(current, body.value);
    var ok := b.Save(merged, fault);
    if !ok {
      return Reply(500, None);
    }
    reply := Reply(200, Some(merged));
  }

  /**
   * `Delete`: the route's id, or the empty text when it has none, must name
   * a stored row (else 500, as when the read fails); 403 unless `CanPerform` allows writing it;
   * otherwise its cache entry is dropped and the row removed (500 when the
   * store refuses), with 200 and no body.
   */
  method Delete(b: Backend, id: Option<string>, readFault: bool, fault: bool,
                canPerform: (Record, bool) -> bool) returns (reply: Reply)
    requires b.Valid() && b.dbReady
    modifies b`store, b`cache
    ensures b.Valid()
    ensures Loaded(old(b.store), if id.Some? then id.value else "", readFault).None? ==>
      reply == Reply(500, None) && b.store == old(b.store) && b.cache == old(b.cache)
    ensures Loaded(old(b.store), if id.Some? then id.value else "", readFault).Some? ==>
      var current := Loaded(old(b.store), if id.Some? then id.value else "", readFault).value;
      var key := CacheKey(b.schema.table, current.id);
      && (!canPerform(current, false) ==>
            reply == Reply(403, None) && b.store == old(b.store)
            && b.cache == Cached(b.Caching(), b.schema.table, old(b.cache), current))
      && (canPerform(current, false) ==>
            && reply == Reply(if fault then 500 else 200, None)
            && b.store == (if fault then old(b.store) else old(b.store) - {current.id})
            && b.cache == (if b.Caching() then old(b.cache) - {key} else old(b.cache)))
    ensures old(b.Coherent()) && b.Caching() ==> b.Coherent()
  {
    var idText := if id.Some? then id.value else "";
    var k := TextKey(idText);
    if k.None? {
      return Reply(500, None);
    }
    var found := b.First(k.value, readFault);
    if found.None? {
      return Reply(500, None);
    }
    var current := found.value;
    if !canPerform(current, false) {
      return Reply(403, None);
    }
    ghost var loaded := b.cache;
    var ok := b.Remove(current.id, fault);
    ghost var key := CacheKey(b.schema.table, current.id);
    assert b.Caching() ==> (loaded - {key} == old(b.cache) - {key});
    reply := Reply(if ok then 200 else 500, None);
  }

  /**
   * The table after the save at crud_gorm.go:171-177 (and gorm_crud.go:103-110)
   * as written: the body is decoded over the loaded row, primary key
   * included, and the result is written under whatever key it then holds.
   */
  function SavedAsWritten(store: map<int, Record>, current: Record, p: Patch): (s: map<int, Record>)
    ensures s.Keys == store.Keys + {Overlay(current, p).id}
    ensures forall k :: k in store && k != Overlay(current, p).id ==> s[k] == store[k]
  {
    store[Overlay(current, p).id := Overlay(current, p)]
  }

  /**
   * As written, an update of row `current.id` whose body names another stored
   * key `j` overwrites row `j` with the loaded row's merged columns and leaves
   * row `current.id`, the one the permission and revision checks looked at,
   * as it was.
   */
  lemma AsWrittenUpdateOverwritesOtherRow(store: map<int, Record>, current: Record, p: Patch, j: nat)
    requires current.id in store && store[current.id] == current
    requires p.id == Some(j) && j != current.id && j in store
    ensures var s := SavedAsWritten(store, current, p);
            && s[j] == Record(j, Overlay(current, p).rev, current.fields + p.fields)
            && s[current.id] == current
            && s.Keys == store.Keys
  {
    assert Overlay(current, p).id == j;
  }

  /** The corrected update writes only the row it checked, and every other row is left as it was. */
  lemma MergedUpdateKeepsOtherRows(store: map<int, Record>, current: Record, p: Patch, k: int)
    requires current.id in store && k in store && k != current.id
    ensures var s := store[current.id := Merge(current, p)];
            && s.Keys == store.Keys
            && s[k] == store[k]
            && s[current.id].id == current.id
  {
  }
}

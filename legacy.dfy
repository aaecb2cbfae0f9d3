/**
 * gorm_crud.go: the earlier generation of the handlers, with no permission
 * check, no revision check and no explicit cache lookup. The id is the route's `id`
 * variable (the empty text when the route has none) parsed as a signed
 * 64-bit decimal; a text that does not parse is answered with 400.
 * `Create` behaves exactly as `CrudGorm.Create`.
 *
 * The cache callbacks may be registered beside these handlers as well:
 * `Read` and `Update` are stated with whatever callbacks the backend has
 * (the query and update callbacks cache the rows they load and save).
 * `Delete` is stated over a backend without callbacks: it hands GORM the
 * bare model, so the delete callback would drop that model's key rather
 * than the key of the deleted id. `readFault` and `fault` stand for an
 * error the store reports on the read and on the write.
 */
module GormCrud {
  import opened Wrappers
  import opened Records
  import opened Caching
  import Decimal
  import CrudGorm

  /** The stored row under a parsed id, if any. */
  function RowAt(store: map<int, Record>, id: int): Option<Record> {
    if id in store then Some(store[id]) else None
  }

  /** What `db.First` yields for a parsed id when the store may report an error on the read. */
  function Loaded(store: map<int, Record>, id: int, readFault: bool): Option<Record> {
    if readFault then None else RowAt(store, id)
  }

  /**
   * For an all-digit id that fits in 64 bits, this generation and the
   * cached one (`CrudGorm`) look up the same row.
   */
  lemma SameRowAsCrudGorm(store: map<int, Record>, idText: string)
    requires idText != [] && Decimal.AllDigits(idText)
    requires Decimal.InInt64(Decimal.DigitsValue(idText))
    ensures Decimal.ParseInt64(idText) == TextKey(idText)
    ensures RowAt(store, Decimal.ParseInt64(idText).value) == CrudGorm.Lookup(store, idText)
  {
    assert Decimal.IsDigit(idText[0]);
  }

  /**
   * `Read`: 400 when the id does not parse, 500 when no row has it or the
   * read fails, else 200 and the row, which the query callback caches.
   */
  method Read(b: Backend, idText: string, readFault: bool) returns (reply: CrudGorm.Reply)
    requires b.Valid() && b.dbReady
    modifies b`cache
    ensures b.Valid()
    ensures Decimal.ParseInt64(idText).None? ==> reply == CrudGorm.Reply(400, None) && b.cache == old(b.cache)
    ensures Decimal.ParseInt64(idText).Some? ==>
      match Loaded(b.store, Decimal.ParseInt64(idText).value, readFault)
      case None => reply == CrudGorm.Reply(500, None) && b.cache == old(b.cache)
      case Some(r) =>
        && reply == CrudGorm.Reply(200, Some(r))
        && b.cache == Cached(b.Caching(), b.schema.table, old(b.cache), r)
    ensures old(b.Coherent()) ==> b.Coherent()
  {
    var id := Decimal.ParseInt64(idText);
    if id.None? {
      return CrudGorm.Reply(400, None);
    }
    var found := b.First(id.value, readFault);
    if found.None? {
      return CrudGorm.Reply(500, None);
    }
    reply := CrudGorm.Reply(200, found);
  }

  /**
   * `Update`: 400 when the id does not parse; 500 when no row has it, when
   * the read fails, when the body cannot be decoded or when the store
   * refuses the save; else the body merged into the stored row, keeping its
   * primary key, is saved and returned with 200. The row loaded stays
   * cached when nothing is saved.
   */
  method Update(b: Backend, idText: string, body: Option<Patch>, readFault: bool, fault: bool)
    returns (reply: CrudGorm.Reply)
    requires b.Valid() && b.dbReady
    modifies b`store, b`cache
    ensures b.Valid()
    ensures Decimal.ParseInt64(idText).None? ==>
      reply == CrudGorm.Reply(400, None) && b.store == old(b.store) && b.cache == old(b.cache)
    ensures Decimal.ParseInt64(idText).Some? ==>
      match Loaded(old(b.store), Decimal.ParseInt64(idText).value, readFault)
      case None => reply == CrudGorm.Reply(500, None) && b.store == old(b.store) && b.cache == old(b.cache)
      case Some(current) =>
        if body.None? || fault then
          && reply == CrudGorm.Reply(500, None) && b.store == old(b.store)
          && b.cache == Cached(b.Caching(), b.schema.table, old(b.cache), current)
        else
          && reply == CrudGorm.Reply(200, Some(Merge(current, body.value)))
          && b.store == old(b.store)[current.id := Merge(current, body.value)]
          && b.cache == Cached(b.Caching(), b.schema.table, old(b.cache), Merge(current, body.value))
    ensures old(b.Coherent()) && b.Caching() ==> b.Coherent()
  {
    var id := Decimal.ParseInt64(idText);
    if id.None? {
      return CrudGorm.Reply(400, None);
    }
    var found := b.First(id.value, readFault);
    if found.None? {
      return CrudGorm.Reply(500, None);
    }
    if body.None? {
      return CrudGorm.Reply(500, None);
    }
    var merged := Merge(found.value, body.value);
    var ok := b.Save(merged, fault);
    if !ok {
      return CrudGorm.Reply(500, None);
    }
    reply := CrudGorm.Reply(200, Some(merged));
  }

  /**
   * `Delete`: 400 when the id does not parse; otherwise the row with that
   * key is removed, whether or not one exists, and 200 with no body is
   * returned (500 when the store refuses).
   */
  method Delete(b: Backend, idText: string, fault: bool) returns (reply: CrudGorm.Reply)
    requires b.Valid() && b.dbReady && b.callbacks == {}
    modifies b`store, b`cache
    ensures b.Valid() && b.cache == old(b.cache)
    ensures Decimal.ParseInt64(idText).None? ==> reply == CrudGorm.Reply(400, None) && b.store == old(b.store)
    ensures Decimal.ParseInt64(idText).Some? ==>
      && reply == CrudGorm.Reply(if fault then 500 else 200, None)
      && b.store == if fault then old(b.store) else old(b.store) - {Decimal.ParseInt64(idText).value}
  {
    var id := Decimal.ParseInt64(idText);
    if id.None? {
      return CrudGorm.Reply(400, None);
    }
    var ok := b.Remove(id.value, fault);
    reply := CrudGorm.Reply(if ok then 200 else 500, None);
  }
}

/**
 * The resources the handlers serve. A resource type is known through its
 * schema (table name, column names, whether it implements `Revisioner`), and
 * one of its rows is a record: primary key, revision number and the other
 * columns. A request body is known only through what JSON decoding finds in
 * it, a patch; decoding it into a struct overwrites the members present and
 * keeps the others.
 */
module Records {
  import opened Wrappers

  /** A JSON scalar as it lands in a column or in a query's bound argument. */
  datatype Value = Null | Bool(b: bool) | Num(n: int) | Text(s: string)

  /** A resource type: its table, its columns and whether it implements `Revisioner`. */
  datatype Schema = Schema(table: string, columns: set<string>, revisioned: bool)

  /** One row: primary key (an unsigned integer), the value `CurrentRevision()` reports, the other columns. */
  datatype Record = Record(id: nat, rev: int, fields: map<string, Value>)

  /** The members a decoded JSON body holds; a member missing from the body is None / absent. */
  datatype Patch = Patch(id: Option<nat>, rev: Option<int>, fields: map<string, Value>)

  /** The zero value of a resource struct, as `reflect.New` allocates it. */
  const Blank: Record := Record(0, 0, map[])

  /**
   * `json.Unmarshal(body, resource)` on a struct that already holds `r`:
   * every member of the body overwrites its field, the primary key included;
   * every field the body leaves out keeps its value.
   */
  function Overlay(r: Record, p: Patch): (o: Record)
    ensures p.id.None? ==> o.id == r.id
    ensures p.id.Some? ==> o.id == p.id.value
    ensures p.rev.None? ==> o.rev == r.rev
    ensures p.rev.Some? ==> o.rev == p.rev.value
    ensures o.fields.Keys == r.fields.Keys + p.fields.Keys
    ensures forall k :: k in p.fields ==> o.fields[k] == p.fields[k]
    ensures forall k :: k in r.fields && k !in p.fields ==> o.fields[k] == r.fields[k]
  {
    Record(
      match p.id case Some(i) => i case None => r.id,
      match p.rev case Some(v) => v case None => r.rev,
      r.fields + p.fields)
  }

  /** Decoding a body into a freshly allocated struct. */
  function Decoded(p: Patch): (o: Record)
    ensures o.id == (if p.id.Some? then p.id.value else 0)
    ensures o.fields == p.fields
    ensures o.rev == (if p.rev.Some? then p.rev.value else 0)
  {
    Overlay(Blank, p)
  }

  /** Decoding the same body twice over a record changes nothing the first time did not. */
  lemma OverlayIdempotent(r: Record, p: Patch)
    ensures Overlay(Overlay(r, p), p) == Overlay(r, p)
  {
    assert Overlay(Overlay(r, p), p).fields == Overlay(r, p).fields;
  }

  /**
   * Decoding a body that names a primary key over a loaded record moves the
   * record to that key: the row a later save writes is not the one loaded.
   */
  lemma OverlayRetargetsRow()
    ensures var loaded := Record(1, 0, map[]);
            var saved := Overlay(loaded, Patch(Some(2), None, map[]));
            saved.id == 2 && saved.id != loaded.id
  {
  }

  /**
   * The merge an update performs: the body's members overlaid on the loaded
   * record, except that the primary key stays that of the loaded record.
   */
  function Merge(current: Record, p: Patch): (m: Record)
    ensures m.id == current.id
    ensures m.rev == Overlay(current, p).rev
    ensures m.fields == Overlay(current, p).fields
  {
    Overlay(current, p).(id := current.id)
  }

  /** The merge differs from the plain overlay only in the primary key. */
  lemma MergeIsOverlayOffKey(current: Record, p: Patch)
    ensures Merge(current, p) == Overlay(current, p.(id := None))
  {
  }

  /** Fields absent from the body keep the values they had in the store. */
  lemma MergeKeepsAbsentFields(current: Record, p: Patch, k: string)
    requires k in current.fields && k !in p.fields
    ensures k in Merge(current, p).fields && Merge(current, p).fields[k] == current.fields[k]
  {
  }
}

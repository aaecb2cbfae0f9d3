/**
 * query_gorm.go: the query compiler. An untrusted `QueryParams` (where items
 * with one level of OR alternatives, a limit, an order map and an include
 * list) becomes an ordered list of parameterised clauses; operators come from
 * a fixed whitelist and keys must be columns of the resource, so the only text
 * ever placed in a clause is a column name, a whitelisted operator and a
 * placeholder. `HandleQuery` then keeps the result rows the reader may see.
 */
module Query {
  import opened Wrappers
  import opened Records
  import Common

  /** `allowedOps()`: the eight operator tokens a where item may use. */
  const AllowedOps: set<string> := {"=", ">", ">=", "<", "<=", "<>", "in", "like"}

  /** One filter `key op val`, with alternatives ORed in right after it. */
  datatype QueryItem = QueryItem(key: string, op: string, val: Value, or: seq<QueryItem>)

  /** The decoded `{"where", "limit", "order", "include"}` request. */
  datatype QueryParams = QueryParams(where: seq<QueryItem>, limit: int, order: map<string, bool>,
                                     includes: seq<string>)

  datatype QueryError = InvalidOperator(op: string) | UnknownColumn(key: string) | UnknownOrderColumn(name: string)
  {
    /** The error text built for each case: it ends with, or names, the offending token. */
    function Message(): (msg: string)
      ensures InvalidOperator? ==> |msg| >= |op| + 8 && msg[..8] == "Invalid " && msg[|msg| - |op|..] == op
      ensures UnknownColumn? ==> |msg| >= |key| + 7 && msg[..7] == "Column " && msg[|msg| - |key|..] == key
      ensures UnknownOrderColumn? ==> |msg| >= |name| + 7 && msg[..7] == "Column " && msg[7..7 + |name|] == name
    {
      match this
      case InvalidOperator(op) => "Invalid SQL operator: " + op
      case UnknownColumn(key) => "Column does not exist: " + key
      case UnknownOrderColumn(name) => "Column " + name + " does not exist"
    }
  }

  /** `in` binds a parenthesised list, every other operator one scalar. */
  function Placeholder(op: string): string {
    if op == "in" then "(?)" else "?"
  }

  /** The clause text for a key and an operator: `key op ?` or `key in (?)`. */
  function ClauseText(key: string, op: string): string {
    key + " " + op + " " + Placeholder(op)
  }

  predicate ValidItem(item: QueryItem, columns: set<string>) {
    item.op in AllowedOps && item.key in columns
  }

  /** The error `getQuery` reports for an item: the operator is looked at before the column. */
  function ItemError(item: QueryItem, columns: set<string>): QueryError {
    if item.op !in AllowedOps then InvalidOperator(item.op) else UnknownColumn(item.key)
  }

  /**
   * `QueryItem.getQuery`: the clause text of a valid item, else the error of
   * the first check that fails (operator whitelist, then column). The item's
   * value takes no part: it is bound separately.
   */
  function GetQuery(item: QueryItem, columns: set<string>): (r: Result<string, QueryError>)
    ensures r.Ok? <==> item.op in AllowedOps && item.key in columns
    ensures item.op !in AllowedOps ==> r == Err(InvalidOperator(item.op))
    ensures item.op in AllowedOps && item.key !in columns ==> r == Err(UnknownColumn(item.key))
    ensures r.Ok? ==> Common.Split(r.value, ' ') == [item.key, item.op, Placeholder(item.op)] || ' ' in item.key
  {
    if item.op !in AllowedOps then Err(InvalidOperator(item.op))
    else if item.key !in columns then Err(UnknownColumn(item.key))
    else
      if ' ' !in item.key then ClauseTextSplits(item.key, item.op); Ok(ClauseText(item.key, item.op))
      else Ok(ClauseText(item.key, item.op))
  }

  /**
   * A clause text reads back as exactly three words: the column, the
   * operator, and the placeholder. Nothing else can hide in it.
   */
  lemma ClauseTextSplits(key: string, op: string)
    requires ' ' !in key && op in AllowedOps
    ensures Common.Split(ClauseText(key, op), ' ') == [key, op, Placeholder(op)]
  {
    var parts := [key, op, Placeholder(op)];
    assert ' ' !in op;
    assert ' ' !in Placeholder(op);
    assert Common.Join(parts, ' ') == ClauseText(key, op) by {
      assert parts[1..][1..] == [Placeholder(op)];
      assert Common.Join(parts[1..], ' ') == op + [' '] + Placeholder(op);
    }
    Common.SplitJoin(parts, ' ');
  }

  /** How a where clause is chained: `Where` (AND) or `Or`. */
  datatype Connective = And | Or

  /** One `Where`/`Or` call of the compiled query: its text and its bound argument. */
  datatype Clause = Clause(conn: Connective, text: string, arg: Value)

  /** What `Find` hands to the store: the clauses in order, the limit, the order pairs, the preloads. */
  datatype Compiled = Compiled(clauses: seq<Clause>, limit: Option<int>, order: map<string, bool>,
                               preloads: seq<string>)

  /** An item together with the connective it is chained with. */
  datatype Flat = Flat(conn: Connective, item: QueryItem)

  function OrFlats(ors: seq<QueryItem>): (fs: seq<Flat>)
    ensures |fs| == |ors|
    ensures forall i :: 0 <= i < |ors| ==> fs[i] == Flat(Or, ors[i])
  {
    seq(|ors|, i requires 0 <= i < |ors| => Flat(Or, ors[i]))
  }

  /** One top-level item as AND, then each of its alternatives as OR, in list order. */
  function ItemFlats(item: QueryItem): seq<Flat> {
    [Flat(And, item)] + OrFlats(item.or)
  }

  /**
   * The where items in the order `Find` visits them. The alternatives of an
   * alternative are never visited.
   */
  function Flatten(items: seq<QueryItem>): seq<Flat>
    decreases |items|
  {
    if items == [] then [] else Flatten(items[..|items| - 1]) + ItemFlats(items[|items| - 1])
  }

  function ClauseFor(f: Flat, columns: set<string>): Result<Clause, QueryError> {
    match GetQuery(f.item, columns)
    case Err(e) => Err(e)
    case Ok(text) => Ok(Clause(f.conn, text, f.item.val))
  }

  /** The clauses of a visiting order, or the error of the first invalid item in it. */
  function CompileWhere(fs: seq<Flat>, columns: set<string>): Result<seq<Clause>, QueryError>
    decreases |fs|
  {
    if fs == [] then Ok([])
    else
      match CompileWhere(fs[..|fs| - 1], columns)
      case Err(e) => Err(e)
      case Ok(cs) =>
        match ClauseFor(fs[|fs| - 1], columns)
        case Err(e) => Err(e)
        case Ok(c) => Ok(cs + [c])
  }

  function LimitOf(limit: int): Option<int> {
    if limit != 0 then Some(limit) else None
  }

  /** `Find` succeeds: every visited item is valid and every order key is a column. */
  predicate Compiles(p: QueryParams, columns: set<string>) {
    CompileWhere(Flatten(p.where), columns).Ok? && p.order.Keys <= columns
  }

  /** The query `Find` builds for parameters that compile. */
  function CompiledQuery(p: QueryParams, columns: set<string>): Compiled
    requires Compiles(p, columns)
  {
    Compiled(CompileWhere(Flatten(p.where), columns).value, LimitOf(p.limit), p.order, p.includes)
  }

  lemma {:induction false} FlattenAppend(a: seq<QueryItem>, b: seq<QueryItem>)
    ensures Flatten(a + b) == Flatten(a) + Flatten(b)
    decreases |b|
  {
    if b != [] {
      var n := |b|;
      assert (a + b)[..|a + b| - 1] == a + b[..n - 1];
      FlattenAppend(a, b[..n - 1]);
    } else {
      assert a + b == a;
    }
  }

  /** Once a prefix of the visiting order fails, the whole order fails with the same error. */
  lemma {:induction false} ErrorPropagates(a: seq<Flat>, b: seq<Flat>, columns: set<string>)
    requires CompileWhere(a, columns).Err?
    ensures CompileWhere(a + b, columns) == CompileWhere(a, columns)
    decreases |b|
  {
    if b != [] {
      var n := |b|;
      assert (a + b)[..|a + b| - 1] == a + b[..n - 1];
      ErrorPropagates(a, b[..n - 1], columns);
    } else {
      assert a + b == a;
    }
  }

  lemma {:induction false} CompileWhereSnoc(fs: seq<Flat>, f: Flat, columns: set<string>)
    ensures CompileWhere(fs + [f], columns) ==
      match CompileWhere(fs, columns)
      case Err(e) => Err(e)
      case Ok(cs) =>
        match ClauseFor(f, columns)
        case Err(e) => Err(e)
        case Ok(c) => Ok(cs + [c])
  {
    assert (fs + [f])[..|fs|] == fs;
  }

  /**
   * A compiled visiting order has one clause per item, in the same order and
   * with the same connective; each clause text is built from a column and a
   * whitelisted operator only, and the item's value is its bound argument.
   */
  lemma {:induction false} CompileWhereOk(fs: seq<Flat>, columns: set<string>)
    requires CompileWhere(fs, columns).Ok?
    ensures var cs := CompileWhere(fs, columns).value;
      && |cs| == |fs|
      && forall i :: 0 <= i < |fs| ==>
           && ValidItem(fs[i].item, columns)
           && cs[i] == Clause(fs[i].conn, ClauseText(fs[i].item.key, fs[i].item.op), fs[i].item.val)
    decreases |fs|
  {
    if fs != [] {
      CompileWhereOk(fs[..|fs| - 1], columns);
    }
  }

  /** Every item valid is enough for the visiting order to compile. */
  lemma {:induction false} CompileWhereAllValid(fs: seq<Flat>, columns: set<string>)
    requires forall i :: 0 <= i < |fs| ==> ValidItem(fs[i].item, columns)
    ensures CompileWhere(fs, columns).Ok?
    decreases |fs|
  {
    if fs != [] {
      CompileWhereAllValid(fs[..|fs| - 1], columns);
    }
  }

  /**
   * A visiting order that fails reports the error of its first invalid item:
   * every item before it is valid, and the operator error wins over the
   * column error of that item.
   */
  lemma {:induction false} CompileWhereFirstError(fs: seq<Flat>, columns: set<string>) returns (i: nat)
    requires CompileWhere(fs, columns).Err?
    ensures i < |fs| && !ValidItem(fs[i].item, columns)
    ensures forall j :: 0 <= j < i ==> ValidItem(fs[j].item, columns)
    ensures CompileWhere(fs, columns).error == ItemError(fs[i].item, columns)
    decreases |fs|
  {
    var n := |fs|;
    var front := fs[..n - 1];
    if CompileWhere(front, columns).Err? {
      i := CompileWhereFirstError(front, columns);
      assert fs[i] == front[i];
      forall j | 0 <= j < i ensures ValidItem(fs[j].item, columns) {
        assert fs[j] == front[j];
      }
    } else {
      CompileWhereOk(front, columns);
      i := n - 1;
      forall j | 0 <= j < i ensures ValidItem(fs[j].item, columns) {
        assert fs[j] == front[j];
      }
    }
  }

  /**
   * The where loop of `QueryParams.Find`: each item contributes an AND clause
   * followed by its OR clauses, and the first invalid item stops the loop
   * with its error.
   */
  method WhereClauses(items: seq<QueryItem>, columns: set<string>) returns (r: Result<seq<Clause>, QueryError>)
    ensures r == CompileWhere(Flatten(items), columns)
  {
    var clauses: seq<Clause> := [];
    var i := 0;
    while i < |items|
      invariant 0 <= i <= |items|
      invariant CompileWhere(Flatten(items[..i]), columns) == Ok(clauses)
    {
      var item := items[i];
      var done := Flatten(items[..i]);
      FlattenSplit(items, i);
      var query := GetQuery(item, columns);
      CompileWhereSnoc(done, Flat(And, item), columns);
      if query.Err? {
        ErrorPropagates(done + [Flat(And, item)], OrFlats(item.or) + Flatten(items[i + 1..]), columns);
        assert Flatten(items) == done + [Flat(And, item)] + (OrFlats(item.or) + Flatten(items[i + 1..]));
        return Err(query.error);
      }
      var withOr := OrClauses(done + [Flat(And, item)], clauses + [Clause(And, query.value, item.val)], item.or, columns);
      if withOr.Err? {
        ErrorPropagates(done + [Flat(And, item)] + OrFlats(item.or), Flatten(items[i + 1..]), columns);
        return withOr;
      }
      clauses := withOr.value;
      i := i + 1;
    }
    assert items[..i] == items;
    r := Ok(clauses);
  }

  /**
   * The inner loop of `QueryParams.Find`: the alternatives of one item, each
   * chained with `Or` after what has been compiled so far.
   */
  method OrClauses(visited: seq<Flat>, clauses: seq<Clause>, ors: seq<QueryItem>, columns: set<string>)
    returns (r: Result<seq<Clause>, QueryError>)
    requires CompileWhere(visited, columns) == Ok(clauses)
    ensures r == CompileWhere(visited + OrFlats(ors), columns)
  {
    var acc := clauses;
    var j := 0;
    assert visited + OrFlats(ors[..0]) == visited;
    while j < |ors|
      invariant 0 <= j <= |ors|
      invariant CompileWhere(visited + OrFlats(ors[..j]), columns) == Ok(acc)
    {
      var orItem := ors[j];
      var sofar := visited + OrFlats(ors[..j]);
      OrFlatsSnoc(visited, ors, j);
      CompileWhereSnoc(sofar, Flat(Or, orItem), columns);
      var query := GetQuery(orItem, columns);
      if query.Err? {
        OrFlatsSplit(visited, ors, j);
        ErrorPropagates(sofar + [Flat(Or, orItem)], OrFlats(ors[j + 1..]), columns);
        return Err(query.error);
      }
      acc := acc + [Clause(Or, query.value, orItem.val)];
      j := j + 1;
    }
    assert ors[..j] == ors;
    r := Ok(acc);
  }

  /** The visiting order of all items, cut at item `i`. */
  lemma {:induction false} FlattenSplit(items: seq<QueryItem>, i: nat)
    requires i < |items|
    ensures Flatten(items[..i + 1]) == Flatten(items[..i]) + [Flat(And, items[i])] + OrFlats(items[i].or)
    ensures Flatten(items) == Flatten(items[..i]) + [Flat(And, items[i])] + OrFlats(items[i].or) + Flatten(items[i + 1..])
  {
    var upto := items[..i + 1];
    assert upto[..|upto| - 1] == items[..i] && upto[|upto| - 1] == items[i];
    assert Flatten(upto) == Flatten(items[..i]) + ItemFlats(items[i]);
    FlattenAppend(upto, items[i + 1..]);
    assert items[..i + 1] + items[i + 1..] == items;
  }

  /** One more alternative visited. */
  lemma {:induction false} OrFlatsSnoc(before: seq<Flat>, ors: seq<QueryItem>, j: nat)
    requires j < |ors|
    ensures before + OrFlats(ors[..j + 1]) == before + OrFlats(ors[..j]) + [Flat(Or, ors[j])]
  {
    assert OrFlats(ors[..j + 1]) == OrFlats(ors[..j]) + [Flat(Or, ors[j])];
  }

  /** The alternatives of one item, cut at alternative `j`. */
  lemma {:induction false} OrFlatsSplit(before: seq<Flat>, ors: seq<QueryItem>, j: nat)
    requires j < |ors|
    ensures before + OrFlats(ors) == before + OrFlats(ors[..j]) + [Flat(Or, ors[j])] + OrFlats(ors[j + 1..])
  {
    assert OrFlats(ors) == OrFlats(ors[..j]) + [Flat(Or, ors[j])] + OrFlats(ors[j + 1..]);
  }

  /**
   * `QueryParams.Find` up to the execution of the query: the where clauses,
   * a limit only when it is non-zero, every order key checked against the
   * columns (in an unspecified order, as Go map iteration is), and include
   * names as preloads in list order.
   */
  method Find(params: QueryParams, columns: set<string>) returns (r: Result<Compiled, QueryError>)
    ensures CompileWhere(Flatten(params.where), columns).Err? ==>
      r == Err(CompileWhere(Flatten(params.where), columns).error)
    ensures Compiles(params, columns) ==> r == Ok(CompiledQuery(params, columns))
    ensures CompileWhere(Flatten(params.where), columns).Ok? && !(params.order.Keys <= columns) ==>
      r.Err? && r.error.UnknownOrderColumn? && r.error.name in params.order.Keys - columns
  {
    var where := WhereClauses(params.where, columns);
    if where.Err? {
      return Err(where.error);
    }
    var clauses := where.value;

    var limit := None;
    if params.limit != 0 {
      limit := Some(params.limit);
    }

    var order: map<string, bool> := map[];
    var pending := params.order.Keys;
    while pending != {}
      invariant pending <= params.order.Keys
      invariant order.Keys == params.order.Keys - pending
      invariant forall k :: k in order ==> k in columns && order[k] == params.order[k]
      decreases pending
    {
      var name :| name in pending;
      if name !in columns {
        return Err(UnknownOrderColumn(name));
      }
      order := order[name := params.order[name]];
      pending := pending - {name};
    }

    assert order == params.order;

    var preloads: seq<string> := [];
    var k := 0;
    while k < |params.includes|
      invariant 0 <= k <= |params.includes|
      invariant preloads == params.includes[..k]
    {
      preloads := preloads + [params.includes[k]];
      k := k + 1;
    }
    assert params.includes[..k] == params.includes;

    r := Ok(Compiled(clauses, limit, order, preloads));
  }

  /** The rows of a query result the reader may see, in their original order. */
  function Readable(rows: seq<Record>, canRead: Record -> bool): seq<Record>
    decreases |rows|
  {
    if rows == [] then []
    else Readable(rows[..|rows| - 1], canRead) + (if canRead(rows[|rows| - 1]) then [rows[|rows| - 1]] else [])
  }

  /** Filtering splits over concatenation: no row's verdict affects another's, and order is kept. */
  lemma {:induction false} ReadableAppend(a: seq<Record>, b: seq<Record>, canRead: Record -> bool)
    ensures Readable(a + b, canRead) == Readable(a, canRead) + Readable(b, canRead)
    decreases |b|
  {
    if b != [] {
      assert (a + b)[..|a + b| - 1] == a + b[..|b| - 1];
      ReadableAppend(a, b[..|b| - 1], canRead);
    } else {
      assert a + b == a;
    }
  }

  /** Each row is kept exactly as often as it occurs when it is readable, and never otherwise. */
  lemma {:induction false} ReadableCount(rows: seq<Record>, canRead: Record -> bool, x: Record)
    ensures multiset(Readable(rows, canRead))[x] == if canRead(x) then multiset(rows)[x] else 0
    decreases |rows|
  {
    if rows != [] {
      var n := |rows|;
      ReadableCount(rows[..n - 1], canRead, x);
      assert rows == rows[..n - 1] + [rows[n - 1]];
    }
  }

  /** A row is in the filtered result exactly when it is a result row that passes the read check. */
  lemma {:induction false} ReadableMembers(rows: seq<Record>, canRead: Record -> bool, x: Record)
    ensures x in Readable(rows, canRead) <==> x in rows && canRead(x)
  {
    ReadableCount(rows, canRead, x);
    assert x in Readable(rows, canRead) <==> multiset(Readable(rows, canRead))[x] > 0;
    assert x in rows <==> multiset(rows)[x] > 0;
  }

  /**
   * `HandleQuery` after the request has been decoded: 500 when the
   * parameters could not be decoded or do not compile; otherwise 200 with
   * the rows that running the compiled query returns (`execute`) that pass
   * the read check, in order.
   */
  method HandleQuery(params: Option<QueryParams>, columns: set<string>,
                     execute: Compiled -> seq<Record>, canRead: Record -> bool)
    returns (status: int, filtered: seq<Record>)
    ensures params.None? ==> status == 500 && filtered == []
    ensures params.Some? && !Compiles(params.value, columns) ==> status == 500 && filtered == []
    ensures params.Some? && Compiles(params.value, columns) ==>
      status == 200 && filtered == Readable(execute(CompiledQuery(params.value, columns)), canRead)
  {
    if params.None? {
      return 500, [];
    }
    var compiled := Find(params.value, columns);
    if compiled.Err? {
      return 500, [];
    }
    var rows := execute(compiled.value);
    filtered := [];
    var i := 0;
    while i < |rows|
      invariant 0 <= i <= |rows|
      invariant filtered == Readable(rows[..i], canRead)
    {
      assert rows[..i + 1][..i] == rows[..i];
      if canRead(rows[i]) {
        filtered := filtered + [rows[i]];
      }
      i := i + 1;
    }
    assert rows[..i] == rows;
    status := 200;
  }
}

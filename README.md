# goal: a Dafny model of the GORM REST layer

`goal` serves the rows of a database table as a REST resource. Its core is a
thin layer over GORM and a key-value cache:

- a **query compiler** (`QueryParams.Find`) that turns an untrusted JSON query
  into parameterised `Where`/`Or` clauses, checking every operator against a
  whitelist and every key against the resource's columns, and `HandleQuery`,
  which keeps the result rows the reader may see;
- four **CRUD handlers** (`Read`, `Create`, `Update`, `Delete`) that answer
  with an HTTP status and a resource, consult the shared cache before the
  database, check permissions through `CanPerform`, and refuse an update whose
  revision is stale;
- the **cache hooks**: keys `table:id`, and the `Cache`/`Uncache` callbacks
  that `RegisterCacher` hooks into GORM's create, update, query and delete
  operations;
- the **revision check** `CanMerge`;
- the **earlier handlers** of gorm_crud.go, which parse the id as a signed
  64-bit decimal and have no permission check, no revision check and no
  explicit cache lookup (their
  `Create`, gorm_crud.go:59-78, behaves exactly as `CrudGorm.Create`);
- two **helpers**: `simpleStructName` and the status decision of `renderJSON`.

## Layout

| file | module | models |
|---|---|---|
| wrappers.dfy | `Wrappers` | `Option` and `Result` |
| decimal.dfy | `Decimal` | `strconv.ParseInt(s, 10, 64)` and the `%v` text of an integer |
| common.dfy | `Common` | `strings.Split`, `simpleStructName`, `renderJSON` |
| records.dfy | `Records` | rows, request bodies, and JSON decoding as an overlay |
| revision.dfy | `Revision` | `CanMerge` |
| query.dfy | `Query` | `allowedOps`, `getQuery`, `Find`, `HandleQuery` |
| cache.dfy | `Caching` | cache keys, cache coherence, the globals `db` and `SharedCache` as class `Backend`, `RegisterCacher`, `Cache`, `Uncache`, and the GORM operations with their callbacks |
| crud.dfy | `CrudGorm` | the handlers of crud_gorm.go |
| legacy.dfy | `GormCrud` | the handlers of gorm_crud.go |

## How the model reads

- The database is a map from primary key to row inside `Caching.Backend`.
  Rows created without a key get the next free one. A store error on a write
  is the parameter `fault`; one on the `db.First` read is `readFault`.
- The shared cache is a map from key to row in the same object. `cacheOn`
  says `SharedCache` is not nil, and `callbacks` holds the callbacks
  registered on the database.
- `CanPerform(resource, request, isRead)` is the parameter
  `canPerform(row, isRead)`. A request body is known through what decoding
  finds in it (`Records.Patch`). Decoding over a struct overwrites the members
  present and keeps the rest (`Records.Overlay`).
- `Find` produces a `Query.Compiled` value: the clauses in the order GORM
  receives them, the limit, the order map and the preloads. `HandleQuery`
  takes the database's answer as a function from that value to rows.

**Cache coherence.** `Caching.CoherentMaps` says that every cache entry under
a key of the resource's table sits under the canonical key of a stored row
and holds that row. `CrudGorm.Read` and `CrudGorm.Create` preserve coherence
unconditionally. `CrudGorm.Update` and `CrudGorm.Delete` preserve it when the
cache callbacks are registered. Over a coherent cache, a row `Read` returns
is always the stored row (`Caching.HitIsStored`). Callbacks are only
registered when `RegisterCacher` runs after `InitGormDb`. Without them, an
update or delete leaves the old entry in the cache, and `Read` keeps serving
it. The contracts of `Backend.Save` and `Backend.Remove` state the conditions
under which coherence survives. `GormCrud.Read` and `GormCrud.Update` are
stated with whatever callbacks are registered and keep coherence the same way.

The model follows the code where it differs from the intended behaviour:

- A successful update does not advance the revision; nothing calls `SetNextRevision`.
- The boolean in `order` is GORM's `reorder` flag for `Order(name, reorder)`, not a direction.
- A missing row is answered with 500, never 404.

## Model

| member | source | states |
|---|---|---|
| Decimal.FormatNat | cache.go:51 | the `%v` text of a natural is non-empty, all digits, reads back as the number, and has no redundant leading zero |
| Decimal.FormatInt | cache.go:51 | the `%v` text of an integer is non-empty and starts with `-` exactly for negative values |
| Decimal.ParseInt64 | gorm_crud.go:44 | a text parses exactly when it is an optional sign and at least one digit whose signed value fits in 64 bits; the value is the digits' value, negated after `-` |
| Decimal.ParseInt64Accepts | gorm_crud.go:44 | `+5`, `007` and `-0` are accepted with values 5, 7 and 0; the empty text, a bare `-` and `1a` are refused |
| Decimal.DigitsValuePositive | gorm_crud.go:44 | a digit run with no leading zero other than "0" has a positive value |
| Decimal.FormatDigitsValue | cache.go:51 | formatting the value of a canonical digit run gives back the run |
| Decimal.ParseFormat | gorm_crud.go:44 | every 64-bit integer's `%v` text parses back to it |
| Decimal.FormatIntInjective | cache.go:51 | distinct integers have distinct `%v` texts |
| Decimal.FormatParse | gorm_crud.go:44 | a canonical text that parses is the `%v` text of its value |
| Common.Split | common.go:16 | splitting yields at least one part, and no part holds the separator |
| Common.JoinSplit | common.go:16 | joining the parts of a split gives back the text |
| Common.SplitJoin | common.go:16 | splitting the join of separator-free parts gives back the parts |
| Common.JoinLast | common.go:16-17 | the last part of a join is a suffix preceded by the separator |
| Common.SplitNoSeparator | common.go:16-18 | a text without the separator splits into itself alone |
| Common.SimpleStructName | common.go:13-19 | the name holds no `.`, is a suffix of the type name preceded by `.` when shorter, and is the whole type name when it has no `.` |
| Common.RenderJSON | common.go:22-39 | no handler gives 405 with no body; a marshal failure gives 500 with no body; otherwise the handler's code, the JSON content type and the marshalled bytes |
| Records.Overlay | crud_gorm.go:171 | decoding over a struct takes each member the body holds, the primary key included, and keeps every other field |
| Records.Decoded | crud_gorm.go:133-145 | a body decoded into a fresh struct has the body's primary key, fields and revision, with 0 for an absent key or revision |
| Records.OverlayIdempotent | crud_gorm.go:171 | decoding the same body twice over a row equals decoding it once |
| Records.OverlayRetargetsRow | crud_gorm.go:171-177 | witness for the Findings row: decoding a body `{"id": 2}` over row 1 yields a row with key 2, so the save that follows targets row 2 |
| Records.Merge | crud_gorm.go:170-177 | the merged row keeps the loaded row's primary key and takes the body's revision and fields over the stored ones |
| Records.MergeIsOverlayOffKey | crud_gorm.go:171 | the merge is the decode overlay of the body with its primary key left out |
| Records.MergeKeepsAbsentFields | gorm_crud.go:101-107 | a field absent from the body keeps its stored value |
| Revision.CanMerge | revision.go:12-16 | an update can be merged exactly when both revisions are equal |
| Revision.CanMergeReflexive | revision.go:15 | a record can always be merged with itself |
| Revision.CanMergeSymmetric | revision.go:15 | the check does not depend on which record is the stored one |
| Revision.CanMergeOnlyRevisions | revision.go:12-16 | only the revisions decide a conflict |
| Query.QueryError.Message | query_gorm.go:53-124 | an operator error starts with `Invalid ` and ends with the operator; a column error starts with `Column ` and ends with the key; an order error starts with `Column ` followed by the column name |
| Query.GetQuery | query_gorm.go:50-71 | an item compiles exactly when its operator is one of the eight and its key a column; the operator error takes precedence over the column error; the clause reads back as column, operator, placeholder |
| Query.ClauseTextSplits | query_gorm.go:62-70 | a clause text is exactly three words: the column, the operator, and `?` or `(?)` |
| Query.OrFlats | query_gorm.go:101-112 | each alternative is chained with OR, in list order |
| Query.FlattenAppend | query_gorm.go:91-113 | the visiting order of two item lists is the concatenation of theirs |
| Query.ErrorPropagates | query_gorm.go:95-97 | once a prefix of the items fails, the whole where list fails with the same error |
| Query.CompileWhereSnoc | query_gorm.go:91-112 | compiling one more item adds its clause at the end, or fails with its error |
| Query.CompileWhereOk | query_gorm.go:99 | a compiled where list has one clause per visited item, with that item's connective, clause text and bound value |
| Query.CompileWhereAllValid | query_gorm.go:91-113 | a where list whose items are all valid always compiles |
| Query.CompileWhereFirstError | query_gorm.go:106-108 | a failing where list reports the error of its first invalid item, and every item before it is valid |
| Query.FlattenSplit | query_gorm.go:91-112 | the visiting order is the prefix, one AND item, its OR alternatives, then the rest |
| Query.OrFlatsSnoc | query_gorm.go:102-111 | visiting one more alternative appends one OR entry |
| Query.OrFlatsSplit | query_gorm.go:102-111 | the alternatives split into those before, one, and those after |
| Query.WhereClauses | query_gorm.go:90-114 | the where loop yields the clauses of every visited item in order, or the first error |
| Query.OrClauses | query_gorm.go:101-112 | the alternatives loop appends one OR clause per alternative, or stops at the first invalid one |
| Query.Find | query_gorm.go:84-141 | a where error is returned as such; an order key that is not a column gives an error naming it; otherwise the clauses, the limit only when non-zero, the order map and the preloads in list order |
| Query.Readable | query_gorm.go:171-191 | the filtered rows, in their original order |
| Query.ReadableAppend | query_gorm.go:178-186 | filtering splits over concatenation, so one row's verdict never affects another's |
| Query.ReadableCount | query_gorm.go:178-186 | each readable row is kept as often as it occurs, and an unreadable one never |
| Query.ReadableMembers | query_gorm.go:178-186 | a row is kept exactly when it is a result row that passes the read check |
| Query.HandleQuery | query_gorm.go:144-192 | an undecodable or invalid query gives 500 with nothing; otherwise 200 with exactly the readable rows of the compiled query's result |
| Caching.DefaultCacheKey | cache.go:50-52 | a key reads back as its name and id text when the name has no colon |
| Caching.SplitCacheKey | cache.go:50-52 | a key splits at its first colon into a colon-free name and the rest |
| Caching.SplitDefaultKey | cache.go:50-52 | splitting `name:id` gives back the name and the id |
| Caching.DefaultCacheKeyInjective | cache.go:50-52 | colon-free names never share a key |
| Caching.CacheKey | cache.go:35-47 | a row's key reads back as its table and the `%v` text of its primary key |
| Caching.CacheKeyInjective | cache.go:35-47 | distinct rows or distinct tables have distinct keys |
| Caching.TextKey | crud_gorm.go:71 | an id text names a row exactly when it is a non-empty run of digits, and then the row whose key is the digits' value |
| Caching.CachedIdOfKey | cache.go:35-47 | a row's key belongs to its table and names that row |
| Caching.CachedIdKey | cache.go:35-47 | a key that names a row is that row's key |
| Caching.CacheStoredRow | cache.go:65-68 | caching a stored row under its key keeps the cache coherent |
| Caching.UncacheKey | cache.go:55-62 | dropping an entry keeps the cache coherent |
| Caching.StoreChangeUncached | crud_gorm.go:177 | changing or removing a row that has no cache entry keeps the cache coherent |
| Caching.HitIsStored | crud_gorm.go:55-67 | a cache hit in a coherent cache is the stored row under the id's key |
| Caching.Backend.constructor | crud_gorm.go:23 | no database, no cache, no callbacks, an empty table |
| Caching.Backend.InitGormDb | crud_gorm.go:25-28 | the database handle is installed |
| Caching.Backend.RegisterCacher | cache.go:21-33 | the cache is installed; the four callbacks are registered only when the cache and the database are both present |
| Caching.Backend.Cache | cache.go:65-68 | the row's key maps to the row and every other key is unchanged; coherence is kept for a stored row |
| Caching.Backend.Uncache | cache.go:55-62 | the row's key is absent and every other key is unchanged; coherence is kept |
| Caching.Backend.First | cache.go:29 | the stored row under the key, if any, unless the store reports a read error (then nothing, cache unchanged); the query callback caches a row it finds |
| Caching.Backend.Insert | cache.go:27 | a refused or taken key changes nothing; otherwise the row is stored under its own or the next key, and the create callback caches it |
| Caching.Backend.Save | cache.go:28 | a refused save changes nothing; otherwise the row replaces the stored one, and the update callback caches it |
| Caching.Backend.Remove | cache.go:30 | the delete callback drops the row's key first; then the row is removed unless the store refuses |
| CrudGorm.Read | crud_gorm.go:37-89 | 400 without an id; a cache hit is answered from the cache without touching the store; a miss loads the row (500, cache unchanged, when none or when the read fails) and caches it before the read check; 403 or 200; over a coherent cache the row returned is the stored row |
| CrudGorm.Create | crud_gorm.go:93-113 | the body is decoded over the caller's resource; 500 and nothing stored on a decode error or a refused insert; otherwise that row is stored under a key it did not have and returned with 200, with no permission check |
| CrudGorm.Update | crud_gorm.go:117-183 | 400 without an id; 500 with the store and cache unchanged on a decode error, a missing row or a failed read; 403 on a failed write check; 409 with the unmodified stored row on a revision conflict; otherwise the merged row is saved (500 when refused) and returned with 200 |
| CrudGorm.Delete | crud_gorm.go:187-217 | 500 with store and cache unchanged when the id names no row or the read fails; 403 with the row kept on a failed write check; otherwise its cache entry is dropped and the row removed, 200 with no body (500 when refused) |
| CrudGorm.SavedAsWritten | crud_gorm.go:171-177 | the save as written writes the decoded row under the key it holds after decoding, and leaves every other row as it was |
| CrudGorm.AsWrittenUpdateOverwritesOtherRow | crud_gorm.go:171-177 | as written, a body naming another stored key overwrites that row with the loaded row's columns and leaves the checked row unchanged |
| CrudGorm.MergedUpdateKeepsOtherRows | crud_gorm.go:170-177 | the corrected update writes only the checked row, under its own key, and every other row is left as it was |
| GormCrud.SameRowAsCrudGorm | gorm_crud.go:44 | for an all-digit id within 64 bits both handler generations load the same row |
| GormCrud.Read | gorm_crud.go:35-55 | 400 when the id is not a 64-bit decimal; 500 with the cache unchanged when no row has it or the read fails; otherwise 200 with the row, which the query callback caches when registered; coherence is kept |
| GormCrud.Update | gorm_crud.go:82-115 | 400 on an unparsable id; 500 with the store and cache unchanged when no row has it or the read fails; 500 with the store unchanged and the loaded row cached when the body cannot be decoded or the save is refused; otherwise the merged row is saved, cached when the callbacks are registered, and returned with 200 |
| GormCrud.Delete | gorm_crud.go:119-139 | 400 on an unparsable id; otherwise the key is removed whether or not a row has it, 200 with no body (500 when refused) |

## Left out

- HTTP routing, method dispatch, sessions and authentication belong to other files. `renderJSON` is modelled only as the status, header and body it writes.
- The body of `CanPerform` is not in the modelled files. It is the parameter `canPerform`.
- The cache's Redis I/O is left out: the cache is a map that never fails. A failed `Get` is treated as a miss, and failed `Set`/`Delete` calls are not modelled.
- JSON encoding and decoding and reflection are left out. A body is what decoding finds in it, and a decode failure is `None`.
- The generated SQL, column lookup (`HasColumn`) and preloading are GORM internals. The model stops at the compiled clause list.
- Query.Find: the order map is compared as a map, not in Go's unspecified iteration order. So when several order keys are bad, the model only states that the reported key is one of them.
- Query.Find: the execution error of `qryDB.Find` is ignored by the source and not modelled. `HandleQuery` takes the result rows as a function of the compiled query.
- Query.HandleQuery: the query callback's caching of the result slice is not modelled, because a slice has no single primary key.
- Caching.TextKey: an id text that is not a non-empty run of digits finds no row, so the handler answers 500. This includes the empty text that `Delete` uses when the route has no id. GORM's own treatment of such a text is not modelled.
- Caching.Backend.Insert: a failed create runs no cache callback. This is a modelling assumption; `Cache` itself never checks the operation's error.
- Caching.Backend.Save: a failed update runs no cache callback, by the same modelling assumption.
- Caching.Backend.First: a failed query runs no cache callback, by the same modelling assumption.
- Caching.Backend.Uncache: the reload before the delete is not modelled, because it leaves the key as it was.
- Caching.Backend.RegisterCacher: requires that a nil cache is never installed after the callbacks are registered. The callbacks would then dereference a nil cache, which the model does not represent.
- A nil `db` panics in every handler. The model turns this into the precondition `dbReady`.
- Primary keys are unbounded naturals. The unsigned width of GORM's `ID` column is not modelled.
- `Revisioner` is a per-type property, the `revisioned` flag of the schema. Both records of an update have the same type, so the flag covers both type assertions.
- GormCrud.Delete: modelled over a backend with no cache callbacks, although they can be registered beside this handler too. It passes the bare model to GORM, so the delete callback would act on that model's own key rather than on the deleted id.
- CrudGorm.Read: `TableName(resource)` is not in the modelled files. It is taken to be the table `scope.TableName()` gives the callbacks, so the key `Read` looks up is the key the callbacks write.
- CrudGorm.Update: saves the intended merge, which keeps the loaded row's key, not the key-moving decode the code performs (see Findings). The save as written is modelled at the store level by `CrudGorm.SavedAsWritten`.
- GormCrud.Update: saves the intended merge, which keeps the loaded row's key, not the key-moving decode at gorm_crud.go:103-110 (see Findings).
- Records.Value: there is no list case, so the value bound to the `(?)` of an `in` item is modelled as one scalar.
- Caching.Backend.InitGormDb: only installs a handle. Installing nil, or a second handle with its own table, is not modelled.
- Each handler returns GORM's error value next to the status. The model keeps only the status and the resource.

## Findings

| source | as written | input that shows it | evidently intended | confidence | as-written member | corrected member |
|---|---|---|---|---|---|---|
| crud_gorm.go:171-177 | the update body is decoded over the loaded row, its primary key included, and the row is then saved | PUT on id 1 with body `{"id": 2, …}`: the permission and revision checks run on row 1, and the save writes row 2 | the body's members are merged into row 1, and the row keeps its primary key (the same holds for gorm_crud.go:103-110) | medium, not executed | CrudGorm.AsWrittenUpdateOverwritesOtherRow | CrudGorm.MergedUpdateKeepsOtherRows |

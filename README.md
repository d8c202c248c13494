# larapackages/repository — a Dafny model of the repository cache layer

The package wraps a Laravel query in a *repository*. Builder calls such as
`where` or `orderBy` are forwarded to the wrapped query and chain. *Getters*
such as `get`, `first`, `paginate` or `max` run the query. An optional cache
*strategy* answers a getter from a tagged cache store or runs it and stores
the answer. There are two flavours:

- the Eloquent repository (`src/Eloquent/Repository.php`) wraps a model's query;
- the Query repository (`src/Query/Repository.php`) wraps a plain query builder.
  It hydrates rows into models, records joins, model aliases and table names,
  and caches the table schema it selects from.

Each flavour has two strategies:

- **`CacheById`** stores only the primary keys of a result: the string
  `"pks:"` followed by the keys joined with `,`. It also stores the sentinels
  `"pks:"` (an empty collection) and `"null"`. On a hit it replays the getter
  with the repository's wheres replaced by `whereIn(key, ids)`.
- **`CacheByResult`** stores the result itself.

Both strategies compute the cache key as
`md5(sprintf("<id|result>:%s($s):%s_%s", method, json(args), toSql(), bindings))`.
The format has three directives, so the bindings never reach the key. Both
strategies tag their entries with the repository class plus the caller's tags,
and `flush` drops every entry that shares a tag.

## Layout

| file | module | what it holds |
|---|---|---|
| `php.dfy` | `Php` | PHP values, truthiness, loose `== null`, `explode`/`implode`/`str_replace`, ordered arrays (`Dict`) |
| `exceptions.dfy` | `Exceptions` | the package's exceptions and the PHP errors the code can raise |
| `store.dfy` | `Store` | the tagged cache store (`Cache::tags(..)`) as a map from (tags, key) to value |
| `laravel.dfy` | `Laravel` | the part of the Laravel builder state the package reads and writes; foreign functions (`md5`, `json_encode`, `toSql`, query execution) as uninterpreted parameters |
| `fingerprint.dfy` | `Fingerprint` | `sprintf` on `%s` and the cache key of both strategies |
| `codec.dfy` | `IdCodec` | what `CacheById` writes and how `get` reads it back |
| `filters.dfy` | `Filters` | `filterByKey` (Eloquent) and `applyCommonFilter` (Query) |
| `common.dfy` | `Dispatch` | `__call` routing, `withCache`'s strategy switch and tags, `when`, fallback arity |
| `naming.dfy` | `Naming` | table names, aliases, `with`/`withFirst`, column prefixes |
| `hydration.dfy` | `Hydration` | the schema cache, the select list and row hydration |
| `chunking.dfy` | `Chunking` | `chunk`, `chunkById` and `doWhile` as traces of callback calls |
| `eloquent_cache.dfy` | `EloquentCache` | one strategy call of the Eloquent flavour as a function of the state |
| `eloquent.dfy` | `Eloquent` | classes `Repository`, `CacheById`, `CacheByResult` (Eloquent) |
| `query_cache.dfy` | `QueryCache` | one strategy call of the Query flavour as a function of the state |
| `query.dfy` | `Query` | classes `Repository`, `CacheById`, `CacheByResult` (Query); joins and hydration |

The PHP classes are Dafny classes. Their fields (the model or query, the
installed strategy, the recorded joins, aliases, table memo and schema cache)
are updated in place by methods. Each method is proved against a step
function that takes the old state to the new one. The properties of the
caching behaviour are lemmas about those step functions. Foreign code is an
`Externals` value of uninterpreted functions:

- `md5` and `json_encode`;
- `toSql`;
- running a getter on a builder, and forwarding a builder method;
- a model's table and key name, and the schema's column listing;
- `class_exists`, and whether a model uses `SoftDeletes`.

## Model

| member | source | states |
|---|---|---|
| Store.LookupIn | src/Eloquent/Cache/CacheById.php:75 | a lookup gives the value stored under exactly these tags and this key, and null when there is none |
| Store.Stored | src/Eloquent/Cache/CacheById.php:134-138 | `put` with a positive lifetime stores the value under (tags, key); a lifetime of zero or less forgets it; every other slot is unchanged |
| Store.Flushed | src/Eloquent/Cache/CacheById.php:144-147 | `flush` keeps exactly the entries whose tag list shares no tag with the flushed tags, with their values |
| Store.FlushForgetsScope | src/Eloquent/Cache/CacheByResult.php:97-100 | after a flush nothing written under the same non-empty tag list can be read |
| Store.FlushKeepsUnrelated | src/Query/Cache/CacheByResult.php:94-97 | a flush leaves entries of tag lists that share no tag with it readable as before |
| Store.PutThenGet | src/Query/Cache/CacheByResult.php:82-89 | a written value reads back under the same tags and key; other (tags, key) pairs read as before |
| Store.TaggedStore.Put | src/Eloquent/Cache/CacheById.php:134-138 | the store's entries become `Stored` of the old entries |
| Store.TaggedStore.Flush | src/Eloquent/Cache/CacheById.php:144-147 | the store's entries become `Flushed` of the old entries |
| Fingerprint.FormatDropsFourth | src/Eloquent/Cache/CacheById.php:52-63 | formatting the key with three or more arguments gives the pre-hash string of the first three; the bindings, passed fourth, vanish |
| Fingerprint.CacheKey | src/Query/Cache/CacheById.php:54-65 | the key is md5 of the strategy prefix, the method name, the JSON of the arguments and the SQL text, in the format's order |
| Fingerprint.KeyIgnoresBindings | src/Eloquent/Cache/CacheByResult.php:47-58 | two queries that differ only in bound values get the same key |
| Fingerprint.BoundValueCollision | src/Query/Cache/CacheByResult.php:48-59 | `where(c, op, v1)` and `where(c, op, v2)` with a known operator and two different non-null values bind different values yet share a key |
| Fingerprint.PreHashPrefixes | src/Query/Cache/CacheByResult.php:48-59 | the two strategies' pre-hash strings differ only in the "id"/"result" prefix |
| IdCodec.Decode | src/Eloquent/Cache/CacheById.php:77-98 | the stored value is a miss iff null, an empty collection iff exactly "pks:", a null result iff "null", an id list iff a longer string starting with "pks:", and verbatim otherwise |
| IdCodec.EloquentEncoding | src/Eloquent/Cache/CacheById.php:108-132 | null becomes "null"; a collection or paginator becomes "pks:" and its keys; a model becomes "pks:" and its key; a missing key raises PrimaryKeyRequired; any other value is kept |
| IdCodec.QueryEncoding | src/Query/Cache/CacheById.php:106-125 | null becomes "null"; any collection or paginator becomes "pks:" and its plucked keys; a model becomes "pks:" and its key; never raises; any other value is kept |
| IdCodec.IdStringTruthy | src/Eloquent/Cache/CacheById.php:136 | `$cache_result ?: $result` always keeps an id string, since it is never falsy |
| IdCodec.IdsRoundTrip | src/Eloquent/Cache/CacheById.php:84-86 | keys without ',' or "pks:" (other than one empty key) decode back to their own PHP strings |
| IdCodec.CommaKeyDoesNotRoundTrip | src/Eloquent/Cache/CacheById.php:84-86 | a key whose string holds ',' is split by `explode`, so the ids read back are never the keys written |
| IdCodec.PksInKeysDoesNotRoundTrip | src/Query/Cache/CacheById.php:82-84 | an id list holding "pks:" anywhere has every occurrence removed by `str_replace`, not just the leading one, so the ids read back are never the keys written |
| IdCodec.IntIdsRoundTrip | src/Eloquent/Cache/CacheById.php:116-131 | integer keys always round-trip, as their decimal strings |
| IdCodec.EmptyCollectionRoundTrip | src/Eloquent/Cache/CacheById.php:80-81 | an empty collection is written as the bare sentinel and read back as an empty collection |
| IdCodec.NullRoundTrip | src/Query/Cache/CacheById.php:80-81 | a null result is written as "null" and read back as null |
| IdCodec.QueryKeylessModel | src/Query/Cache/CacheById.php:121-124 | a Query-flavour model without a key is written as "pks:" and read back as an empty collection |
| IdCodec.SentinelStringsCollide | src/Eloquent/Cache/CacheById.php:80-83 | a getter that returns the string "null" or "pks:" is read back as null or an empty collection |
| IdCodec.OtherValuesRoundTrip | src/Query/Cache/CacheById.php:96-98 | integers, booleans, plain rows and other strings are written and read back unchanged |
| Laravel.WhereScalar | src/Eloquent/Repository.php:146-149 | the builder's `where` on one value: an unknown operator is compared with `=` as the value; null with `=` becomes `whereNull`, with `<>` or `!=` `whereNotNull`, binding nothing; null with any other known operator raises the illegal-combination error; otherwise a basic where binding the value |
| Laravel.NullComparisonChangesSql | src/Query/Repository.php:674-677 | a null value leaves a different query to compile than any non-null one, and binds one value fewer |
| Filters.EloquentKeyFilter | src/Eloquent/Repository.php:142-164 | a scalar goes through the builder's `where(key, op, v)`; a list with '=' or '!=' adds `whereIn`, negated for '!='; any other operator on a list raises InvalidOperator |
| Filters.SearchNull | src/Query/Repository.php:687 | `array_search(null, ..)` finds the first value loosely equal to null, and none when no value is |
| Filters.CommonFilter | src/Query/Repository.php:672-702 | as written: a scalar goes through the builder's `where`; a list with '=' or '!=' adds one nested group; a list with any other operator raises InvalidOperator |
| Filters.GroupBindings | src/Query/Repository.php:684-698 | the group binds the list's values minus the first loosely-null one, and starts with `whereNull` iff some value is loosely null |
| Filters.NotInListIsDropped | src/Query/Repository.php:693-698 | as written, `!=` on the list [1, 2] gives a group whose IN is not negated |
| Filters.CommonFilterNegating | src/Query/Repository.php:672-702 | corrected: the same group with the `!=` flag reaching the IN |
| Filters.NegatingFilterNegates | src/Query/Repository.php:693-698 | with the flag passed on, a list filter succeeds and its IN is negated exactly for '!=' |
| Filters.EmptyIdBecomesNullTest | src/Query/Repository.php:687-691 | an empty-string id, being loosely null, becomes a `whereNull` test and leaves the IN list |
| Filters.SearchNullFirst | src/Query/Repository.php:687 | the search returns the first loosely-null index |
| Dispatch.RouteOf | src/Eloquent/Repository.php:323-331 | a name is not found iff it is in neither list, a getter iff it is in the getter list, a builder method iff only in the available list |
| Dispatch.Lift | src/Eloquent/Repository.php:340-344 | a getter's result or exception passes through `__call` unchanged |
| Dispatch.SelectStrategy | src/Eloquent/Repository.php:274-291 | "id" selects CacheById, "result" CacheByResult, and any other name raises CacheStrategyNotFound |
| Dispatch.CacheTags | src/Query/Repository.php:301-318 | the strategy's tags are the called class followed by the caller's tags |
| Dispatch.FlushReachesSiblings | src/Eloquent/Repository.php:274-291 | flushing one strategy of a repository class empties every strategy of that class, whatever the extra tags |
| Dispatch.FlushSparesOtherClasses | src/Query/Repository.php:301-318 | strategies of two classes whose tag lists share no tag never flush each other |
| Dispatch.When | src/Eloquent/Repository.php:125-134 | a truthy value gives the callback's truthy answer; a falsy value without a default gives the repository; the answer is the repository or a truthy value |
| Dispatch.ArityError | src/Query/Cache/CacheById.php:75-77 | calling a closure with fewer arguments than it declares raises ArgumentCountError, and only then |
| Naming.TableName | src/Query/Repository.php:256-262 | an alias of another model names that model's table followed by " as alias"; a model without an alias names its own table |
| Naming.TableMemo | src/Query/Repository.php:252-267 | `table()` returns the memoised name when there is one, computes and records it otherwise, and changes no other entry |
| Naming.TableMemoIdempotent | src/Query/Repository.php:256-266 | asking twice gives the same name and leaves the memo as the first call left it |
| Naming.Column | src/Query/Repository.php:225-234 | a column of an aliased model is "alias.column", otherwise "table.column" with the table memoised |
| Naming.AddAlias | src/Query/Repository.php:210-217 | the first model registered for an alias stays; a new alias is added; other aliases are unchanged |
| Naming.AddWith | src/Query/Repository.php:178-186 | `with` inserts an absent key and removes it from `with_first`, keeping the two disjoint; every other `with` entry and every kept `with_first` entry keeps its value |
| Naming.AddWithFirst | src/Query/Repository.php:194-202 | `withFirst` inserts an absent key only when `with` does not have it, and its keys become the old keys plus the new one minus those of `with`; every other kept entry keeps its value; `with` is untouched; the two stay disjoint |
| Naming.JoinKey | src/Query/Repository.php:573-575 | a join is recorded under a key ending with "->related" |
| Naming.PrefixedColumns | src/Query/Repository.php:838-841 | each schema column c of table t becomes "t.c as t_c", in schema order |
| Naming.StripPrefix | src/Query/Repository.php:923-934 | stripping keeps at most the row's columns |
| Naming.StripRecoversColumns | src/Query/Repository.php:923-934 | a row selected with t's prefixed columns strips back to t's own column names and values |
| Naming.StripDropsOtherTables | src/Query/Repository.php:926-930 | columns without the prefix are all dropped |
| Hydration.MergeGet | src/Query/Repository.php:844 | `array_merge` reads the second array's value for its keys and the first's for the rest |
| Hydration.JoinedRelations | src/Query/Repository.php:815-822 | the relations still to fetch are exactly those not cached yet that some recorded join ends with |
| Hydration.RelationTables | src/Query/Repository.php:823-831 | the table dictionary keeps distinct keys |
| Hydration.RelationTablesKeys | src/Query/Repository.php:823-831 | the keys added are exactly each pending relation's name: its class's table when the class exists, the relation otherwise |
| Hydration.RelationTablesKeep | src/Query/Repository.php:823-831 | a name no pending relation has reads as before |
| Hydration.RelationTablesGet | src/Query/Repository.php:823-831 | a relation's name reads the column listing of its (aliased) class's table, unless a later relation has the same name |
| Hydration.PrefixAll | src/Query/Repository.php:837-842 | every cached table's columns are prefixed, table by table |
| Hydration.PrefixAllGet | src/Query/Repository.php:837-844 | looking a table up after prefixing gives its prefixed columns |
| Hydration.SchemaSelectsBase | src/Query/Repository.php:811-848 | the base table is always in the schema cache, fetched and prefixed when new; with it cached and no new joined relation, the cache is unchanged |
| Hydration.Prefixed | src/Query/Repository.php:926-930 | the filter keeps only columns of the row that start with the prefix |
| Hydration.StripInTwoPhases | src/Query/Repository.php:923-934 | filtering, then renaming each column with the prefix removed once, is the one-pass strip |
| Hydration.StripRow | src/Query/Repository.php:925-934 | the per-row loop computes exactly the strip |
| Hydration.KeepRows | src/Query/Repository.php:935-938 | at most the given rows are kept, each with some truthy value |
| Hydration.Package | src/Query/Repository.php:882-888 | a paginator keeps its kind, any other collection becomes an Eloquent collection, and a single result becomes the first model or null |
| Hydration.HydrateRows | src/Query/Repository.php:916-941 | the row loop computes exactly the rows handed to `hydrate` |
| Hydration.HydratedRowRoundTrip | src/Query/Repository.php:910-942 | a prefixed row hydrates to the model with t's own columns, or to null when every value is falsy |
| Chunking.Take | src/Query/Repository.php:444-446 | `take(n)` keeps the first n rows, and all rows when n is negative or larger |
| Chunking.ChunkPagesNonEmpty | src/Query/Repository.php:393-426 | the callback sees consecutive page numbers from 1 and never an empty page |
| Chunking.ChunkStopsOnlyAtEnd | src/Eloquent/Repository.php:187-216 | every page but the last is full and accepted; the run returns false iff the callback answered false on the last page |
| Chunking.ChunkReadsRest | src/Eloquent/Repository.php:187-216 | a run that is not stopped reads the rows from its first page on, each once and in order |
| Chunking.ChunkCoversRows | src/Query/Repository.php:393-426 | with a positive count and a callback that never stops, the run returns true and its pages are the rows, once each and in order |
| Chunking.ChunkNonPositiveCount | src/Eloquent/Repository.php:195-203 | a count of zero finds an empty first page and returns true; a negative count reads every row in one page |
| Chunking.IncreasingTail | src/Eloquent/Repository.php:234-236 | rows in key order stay in key order without their first row |
| Chunking.Above | src/Eloquent/Repository.php:241-243 | `where key > last_id` keeps only rows above the last id |
| Chunking.AboveIsSuffix | src/Eloquent/Repository.php:234-243 | in key order the rows above a key are a suffix of the rows |
| Chunking.AllAbove | src/Query/Repository.php:451-453 | when the first key is above the last id, every row is |
| Chunking.AbovePastPage | src/Query/Repository.php:456-457 | moving the last id to a page's last key drops exactly that page from what remains |
| Chunking.AboveSplit | src/Eloquent/Repository.php:246-247 | the rows above the key at position m - 1 are exactly the rows from m on |
| Chunking.ByIdZeroCountNeverStops | src/Query/Repository.php:450-466 | as written, a round with count 0 finds nothing, keeps the last id and asks for another round |
| Chunking.ChunkByIdLoop | src/Query/Repository.php:436-471 | the loop returns the trace's result: false iff the callback stopped, true when a short or empty page ends the run |
| Chunking.ByIdPagesCover | src/Eloquent/Repository.php:226-257 | a run that returns true hands out every remaining row, once each and in order |
| Chunking.ByIdPagesNonEmpty | src/Query/Repository.php:456-463 | chunkById never hands the callback an empty page |
| Chunking.ByIdStopsOnlyAtEnd | src/Eloquent/Repository.php:240-254 | all pages but the last are full and accepted; the run returns false iff the last page stopped |
| Chunking.ChunkByIdCoversRows | src/Query/Repository.php:436-471 | from last id 0, a callback that never stops sees every row with a positive key, once and in order, and the run returns true |
| Chunking.DoWhileFromFacts | src/Query/Repository.php:363-383 | doWhile hands out non-empty results of at most count rows, all full but the last |
| EloquentCache.Fall | src/Eloquent/Repository.php:332-338 | the repository getter runs the model's query and resets the model; a closure declaring more than two parameters raises ArgumentCountError |
| EloquentCache.ByIdPut | src/Eloquent/Cache/CacheById.php:108-139 | write stores the encoding of the result, or raises PrimaryKeyRequired and writes nothing |
| EloquentCache.ReplayQuery | src/Eloquent/Cache/CacheById.php:88-91 | a replay clears the model's wheres and bindings and filters by the ids alone |
| EloquentCache.ByIdAnswersFromStore | src/Eloquent/Cache/CacheById.php:80-83 | a stored sentinel or plain value is answered from the store: fallback not called, nothing changes |
| EloquentCache.ByIdReplays | src/Eloquent/Cache/CacheById.php:84-97 | an id list replays the fallback once on the id-filtered model, with 'all' renamed to 'get'; the store is untouched |
| EloquentCache.ByIdMissWrites | src/Eloquent/Cache/CacheById.php:77-79 | a miss returns the fallback's result and writes its encoding, under the key of the model as the fallback left it |
| EloquentCache.KeyedByIdServesRepeat | src/Eloquent/Cache/CacheById.php:72-101 | with the write under the looked-up key, the same call never misses again; null and empty collections come back as such |
| EloquentCache.ByResultHitVerbatim | src/Eloquent/Cache/CacheByResult.php:67-78 | a non-null stored value is returned as it is, whatever the fallback, and nothing changes |
| EloquentCache.ByResultSecondFallbackNeverRuns | src/Eloquent/Cache/CacheByResult.php:67-78 | once a non-null result is stored, a different fallback for the same call is never run |
| EloquentCache.ByResultNullNeverServed | src/Eloquent/Cache/CacheByResult.php:85-92 | a null result is stored as null, so the same call misses again |
| EloquentCache.FlushThenMiss | src/Eloquent/Cache/CacheByResult.php:97-100 | after flush every call of either strategy misses and runs its fallback |
| EloquentCache.MissWritesUnderResetKey | src/Eloquent/Cache/CacheById.php:77-79 | as written, a filtered `get` is written under the reset model's key: the filtered key stays empty and the unfiltered query is served the filtered answer |
| EloquentCache.KeyedMissServesSameQuery | src/Eloquent/Cache/CacheById.php:72-101 | written under the looked-up key, the filtered query is served its own answer and the unfiltered one runs |
| Eloquent.UnknownMethodFails | src/Eloquent/Repository.php:323-327 | a name in neither list raises MethodNotFound and changes nothing |
| Eloquent.AvailableChains | src/Eloquent/Repository.php:347-349 | an available method replaces the model with the builder's answer and returns the repository |
| Eloquent.GetterRoutes | src/Eloquent/Repository.php:331-345 | without a strategy a getter runs on the model and resets it; with one, the answer is the strategy's `get` with the repository getter as fallback |
| Eloquent.RepeatedFilteredGetRunsAgain | src/Eloquent/Repository.php:321-350 | through `__call`, a filtered `get` with a ById cache runs again on the next identical call |
| Eloquent.Repository.constructor | src/Eloquent/Repository.php:89-92 | a new repository holds a fresh model and no strategy |
| Eloquent.Repository.MakeModel | src/Eloquent/Repository.php:109-114 | the model becomes a fresh query on the model class |
| Eloquent.Repository.FilterByKey | src/Eloquent/Repository.php:142-164 | the model becomes `EloquentKeyFilter` of the old model, or InvalidOperator with the model unchanged |
| Eloquent.Repository.OrderByKey | src/Eloquent/Repository.php:171-177 | the model is ordered by its key in the given direction |
| Eloquent.Repository.GetCache | src/Eloquent/Repository.php:262-265 | returns the installed strategy |
| Eloquent.Repository.WithCache | src/Eloquent/Repository.php:274-291 | installs a fresh strategy of the named kind with the class-prefixed tags and lifetime, or raises CacheStrategyNotFound and keeps the old one |
| Eloquent.Repository.WithoutCache | src/Eloquent/Repository.php:296-301 | removes the strategy |
| Eloquent.Repository.RunFallback | src/Eloquent/Repository.php:332-338 | calling a fallback as `$default($method, $args)` does what `Fall` says |
| Eloquent.Repository.Call | src/Eloquent/Repository.php:321-350 | `__call` leaves the result, model and store that `CallStep` computes, and keeps the strategy |
| Eloquent.Repository.Chunk | src/Eloquent/Repository.php:187-216 | orders by key when the query has no order, and returns the result of the `chunk` trace over the rows |
| Eloquent.Repository.ChunkById | src/Eloquent/Repository.php:226-257 | an ordered query raises CanNotSpecifyOrderByClause; otherwise it returns the result of the chunkById trace |
| Eloquent.CacheById.GetCacheKey | src/Eloquent/Cache/CacheById.php:52-63 | the key hashes the "id" format over the method, the JSON arguments and the current model's SQL |
| Eloquent.CacheById.Write | src/Eloquent/Cache/CacheById.php:108-139 | writes what `ByIdPut` computes, or raises PrimaryKeyRequired and leaves the store alone |
| Eloquent.CacheById.Get | src/Eloquent/Cache/CacheById.php:72-101 | leaves the result, model and store that `ByIdGet` computes |
| Eloquent.CacheById.Flush | src/Eloquent/Cache/CacheById.php:144-147 | flushes the strategy's tags |
| Eloquent.CacheByResult.GetCacheKey | src/Eloquent/Cache/CacheByResult.php:47-58 | the key hashes the "result" format over the method, the JSON arguments and the current model's SQL |
| Eloquent.CacheByResult.Write | src/Eloquent/Cache/CacheByResult.php:85-92 | stores the result as it is under the current key |
| Eloquent.CacheByResult.Get | src/Eloquent/Cache/CacheByResult.php:67-78 | leaves the result, model and store that `ByResultGet` computes |
| Eloquent.CacheByResult.Flush | src/Eloquent/Cache/CacheByResult.php:97-100 | flushes the strategy's tags |
| QueryCache.ModelClass | src/Query/Repository.php:1064 | an alias names its model; any other name is its own class |
| QueryCache.NotDeleted | src/Query/Repository.php:1061-1071 | a soft-deleting base model gets `whereNull(table.deleted_at)`; any other query is unchanged |
| QueryCache.QFall | src/Query/Repository.php:741-745 | the getter closure declares three parameters: called with fewer it raises ArgumentCountError, otherwise it filters out deleted rows and runs the query handed in |
| QueryCache.ReplayFilter | src/Query/Cache/CacheById.php:86-89 | a replay leaves the repository's query with one nested where: the id group on the qualified key |
| QueryCache.CallGetterStep | src/Query/Repository.php:739-752 | without a strategy the getter runs and the store is untouched |
| QueryCache.MissCallsGetterWithTwoArgs | src/Query/Cache/CacheById.php:75-77 | as written, a miss raises ArgumentCountError(2, 3): nothing runs and nothing is written |
| QueryCache.CorrectedMissRunsGetter | src/Query/Cache/CacheById.php:70-99 | with the query passed, a miss runs the getter, writes its id encoding under the looked-up key, and the next call does not miss |
| QueryCache.QByIdAnswersFromStore | src/Query/Cache/CacheById.php:78-81 | a stored sentinel or plain value is answered from the store; nothing changes |
| QueryCache.DirectReplayRunsIdFilter | src/Query/Cache/CacheById.php:82-96 | on the direct getter path a replay runs the id-filtered query; nothing is written |
| QueryCache.HydrateReplayRunsClone | src/Query/Cache/CacheById.php:82-96 | on the hydrating path a replay filters the repository's query but runs the clone without the id filter |
| QueryCache.QByResultHitVerbatim | src/Query/Cache/CacheByResult.php:64-75 | a non-null stored value is returned as it is, whatever the fallback; nothing changes |
| QueryCache.QByResultNullNeverServed | src/Query/Cache/CacheByResult.php:82-89 | a null result is stored as null, so the same call misses again |
| QueryCache.SoftDeleteWriteMissesLookupKey | src/Query/Cache/CacheByResult.php:64-75 | `max()` on a soft-deleting model is written under the key of the query with the deleted filter, so the key looked up stays empty |
| QueryCache.FixedKeyServesRepeat | src/Query/Cache/CacheByResult.php:64-75 | written under the looked-up key, the same call is then served from the store |
| Query.ModelHydrate | src/Query/Repository.php:769-771 | the hydrated model is the requested one, or the base model when none is set |
| Query.HydrateGroup | src/Query/Repository.php:776-779 | with joins the clone is grouped by the model's key; without joins nothing changes; nothing else in the query changes |
| Query.HydrateSelect | src/Query/Repository.php:781-787 | when `with_first` is empty the clone selects only `column('*', model)`: "alias.*" for an alias, else the memoised "table.*", with the memo returned; otherwise it selects the cached schema columns and leaves the memo |
| Query.HydratePrepShape | src/Query/Repository.php:766-787 | the clone differs from the repository's query in its groups and columns only, and is grouped iff there are joins |
| Query.HydrateResult | src/Query/Repository.php:789-796 | a null or failed result is passed on; any other is hydrated, keeping its "t_" columns when the schema was selected |
| Query.HydrateLeavesOwnQuery | src/Query/Repository.php:764-803 | without a strategy or with the result strategy, a hydrating getter runs on the clone and leaves the repository's query as it was |
| Query.SoftDeleteCondition | src/Query/Repository.php:596-603 | the join clause gets one `whereNull(table.deleted_at)` iff the related model soft-deletes |
| Query.JoinRecordedOnce | src/Query/Repository.php:566-610 | a new join key adds exactly one join clause on the related table; a repeated key changes nothing |
| Query.FailedJoinIsNotRetried | src/Query/Repository.php:577-606 | a column join without a related key raises a TypeError after recording its key, so joining again is a silent no-op |
| Query.Repository.constructor | src/Query/Repository.php:143-148 | a new repository holds a fresh query on the base table, no strategy and empty caches |
| Query.Repository.Init | src/Query/Repository.php:651-663 | resets the query to a fresh one on the base table, empties `with`, joins and aliases, forgets the hydrate model, sets the table memo to the base table alone and removes the strategy; `with_first` and the schema cache are kept |
| Query.Repository.Hydrate | src/Query/Repository.php:165-170 | records the model to hydrate |
| Query.Repository.With | src/Query/Repository.php:178-186 | updates `with`/`with_first` as `AddWith` says |
| Query.Repository.WithFirst | src/Query/Repository.php:194-202 | updates `with_first` as `AddWithFirst` says |
| Query.Repository.AddModelAlias | src/Query/Repository.php:210-217 | updates the aliases as `AddAlias` says |
| Query.Repository.Table | src/Query/Repository.php:252-267 | returns and memoises the table name as `TableMemo` says |
| Query.Repository.Column | src/Query/Repository.php:225-234 | returns the qualified column as `Naming.Column` says |
| Query.Repository.ApplyCommonFilter | src/Query/Repository.php:672-702 | the query becomes `CommonFilter` of the old query, or InvalidOperator with the query unchanged |
| Query.Repository.FilterByKey | src/Query/Repository.php:275-280 | the common filter on the qualified key |
| Query.Repository.OrderByKey | src/Query/Repository.php:287-292 | orders by the qualified key |
| Query.Repository.WithCache | src/Query/Repository.php:301-318 | installs a fresh strategy of the named kind with the class-prefixed tags, or raises CacheStrategyNotFound and keeps the old one |
| Query.Repository.WithoutCache | src/Query/Repository.php:323-328 | removes the strategy |
| Query.Repository.FilterByNotDeleted | src/Query/Repository.php:1061-1071 | the query object handed in gets the soft-delete filter as `NotDeleted` says |
| Query.Repository.RunFallback | src/Query/Repository.php:741-745 | calling a fallback with `passed` arguments does what `QFall` says |
| Query.Repository.CallGetter | src/Query/Repository.php:739-752 | leaves what `CallGetterStep` computes, on the repository's query and the query handed in |
| Query.Repository.ColumnsToSelect | src/Query/Repository.php:811-848 | updates the schema cache as `SchemaAfter` says and returns its flattened column list |
| Query.Repository.Search | src/Query/Repository.php:918-922 | the prefix is the alias or the memoised table, then "_" |
| Query.Repository.PrepareHydrate | src/Query/Repository.php:766-787 | a fresh clone of the query, grouped and with its select list as `HydratePrep` says |
| Query.Repository.GroupClone | src/Query/Repository.php:776-779 | groups the clone as `HydrateGroup` says |
| Query.Repository.SelectClone | src/Query/Repository.php:781-787 | selects on the clone and updates the schema cache as `HydrateSelect` and `HydrateSchema` say |
| Query.Repository.HydrateGetterResult | src/Query/Repository.php:789-796 | hydrates the result as `HydrateResult` says |
| Query.Repository.CallHydrateGetter | src/Query/Repository.php:764-803 | leaves what `HydrateGetterStep` computes |
| Query.Repository.Call | src/Query/Repository.php:508-535 | unknown names raise MethodNotFound and change nothing; builder methods replace the query and return the repository; getters go through the hydrating or the direct path, and a successful getter is followed by `init()`, so an installed strategy serves one getter call only; a failing getter skips `init()`, so `with`, joins, aliases, the model to hydrate and the strategy all stay |
| Query.Repository.Join | src/Query/Repository.php:566-610 | records the join and adds its clause as `JoinStep` says |
| Query.Repository.LeftJoin | src/Query/Repository.php:620-627 | a join of type "left" |
| Query.Repository.RightJoin | src/Query/Repository.php:637-644 | a join of type "right" |
| Query.Repository.SoftDeleteJoinCondition | src/Query/Repository.php:599-603 | the soft-delete clause as `SoftDeleteCondition` says |
| Query.Repository.Chunk | src/Query/Repository.php:393-426 | returns the result of the `chunk` trace, then leaves the state `init()` leaves |
| Query.Repository.ChunkById | src/Query/Repository.php:436-471 | an ordered query raises CanNotSpecifyOrderByClause and changes nothing; otherwise it returns the chunkById trace's result, then `init()` |
| Query.Repository.DoWhile | src/Query/Repository.php:363-383 | returns the result of the doWhile trace over the answers |
| Query.CacheById.GetCacheKey | src/Query/Cache/CacheById.php:54-65 | the key hashes the "id" format over the method, the JSON arguments and the repository query's SQL |
| Query.CacheById.Write | src/Query/Cache/CacheById.php:106-132 | stores the Query encoding of the result; never raises |
| Query.CacheById.Get | src/Query/Cache/CacheById.php:70-99 | leaves what `QByIdGet` computes |
| Query.CacheById.Flush | src/Query/Cache/CacheById.php:137-140 | flushes the strategy's tags |
| Query.CacheByResult.GetCacheKey | src/Query/Cache/CacheByResult.php:48-59 | the key hashes the "result" format over the method, the JSON arguments and the repository query's SQL |
| Query.CacheByResult.Write | src/Query/Cache/CacheByResult.php:82-89 | stores the result as it is |
| Query.CacheByResult.Get | src/Query/Cache/CacheByResult.php:64-75 | leaves what `QByResultGet` computes |
| Query.CacheByResult.Flush | src/Query/Cache/CacheByResult.php:94-97 | flushes the strategy's tags |

## Left out

- The cache store's lifetime is modelled only as "positive or not" at write time. Expiry over time, drivers without tags, and serialisation are not modelled.
- `md5`, `json_encode`, `toSql` and query execution are uninterpreted functions, so no property depends on what the SQL text or the hash look like. `md5` is an arbitrary function. The lemmas that exhibit a concrete key clash or drift use the identity for it and a SQL text that only shows whether there is a where.
- Running SQL against a database is out of scope. `chunk` and `chunkById` read a given row sequence in the query's order, and `doWhile` reads a given sequence of answers.
- The getter calls inside `chunk`, `chunkById` and `doWhile` go through the installed strategy in the source. The model reads the rows directly, without the cache.
- `count` (raw SQL around the query, then `init()`) and `cursor` (streams the query) are left out, because they run SQL outside the cache strategies.
- `firstOrFail` is left out. It is a `first` followed by a null check that raises ModelNotFound.
- `rawColumn` and the accessors `getQuery`/`getModel` are left out, because they only read state.
- `__clone` is not a member. Where the source clones, the model copies the builder state into a new object.
- Relations loaded after hydration (`getModelsRelationships`, `addRelationshipsToModel`, `loadMissing`) are left out. `callHydrateGetter` is modelled up to the hydrated models.
- Model reflection is reduced to two foreign predicates: `class_exists`, and whether a class uses `SoftDeletes`.
- The closures `when` calls are total functions of the value. A closure that throws, or that changes the repository, is not modelled.
- Eloquent.Repository.ChunkById and Query.Repository.ChunkById: the table is given as rows in increasing key order, which is what `orderBy(key)` hands back. Sorting is not modelled.
- Chunking.ChunkByIdLoop: ends on an empty page. For a count of 0 the code as written loops forever instead (see Findings). For every other count, an empty page ends the source's loop as well.
- Laravel.WhereScalar: one predicate stands for both of Laravel's operator checks. Laravel matches the operator case-sensitively against its own list when it rejects null, and lower-cased against its list and the grammar's when it swaps an unknown operator for the value, so an upper-case operator with null (`'LIKE'`) is rejected here where Laravel builds `whereNotNull`. Closure values and JSON boolean columns are not modelled.
- Store.TaggedStore.Get is a reading function of the store map, with no contract of its own; `Store.LookupIn` carries its contract.
- The classes follow the code as written. The corrected behaviour of each finding is a flag of the step function (`fixedKey`, `corrected`) or a separate function (`Filters.CommonFilterNegating`), and its property is proved there.

## Findings

| source | as written | input that shows it | evidently intended | confidence | as-written member | corrected member |
|---|---|---|---|---|---|---|
| src/Eloquent/Cache/CacheById.php:77-79 | on a miss, `write` recomputes the key after the repository getter has reset the model with `makeModel()`, so the result goes under the key of the unfiltered query (the same holds in CacheByResult.php:72-74) | `filterByKey(1)->get()` with a ById cache, then a plain `get()` | write under the key that was looked up | high; not executed | EloquentCache.MissWritesUnderResetKey | EloquentCache.KeyedMissServesSameQuery |
| src/Query/Cache/CacheById.php:75-77 | a miss calls the repository's getter closure, which declares `($query, $method, $args)`, with two arguments | any getter with a ById cache on an empty store | `$default($query, $method, $args)`, as on the replay path | high; not executed | QueryCache.MissCallsGetterWithTwoArgs | QueryCache.CorrectedMissRunsGetter |
| src/Query/Repository.php:693-698 | `orWhereIn($column, $value, 'and', $operator === '!=')` passes `'and'` and the negation flag where Laravel's `orWhereIn($column, $values)` takes nothing more, so `!=` on a list keeps the listed keys | `filterByKey([1, 2], '!=')` | a negated IN, as the Eloquent `filterByKey` builds | high; not executed | Filters.NotInListIsDropped | Filters.NegatingFilterNegates |
| src/Query/Repository.php:1061-1071 | the getter adds `whereNull(deleted_at)` to the query it runs; on the direct path that is the repository's own query, so `write` computes a different key from the one looked up | `max()` on a soft-deleting model with a result cache | write under the key that was looked up | medium; not executed | QueryCache.SoftDeleteWriteMissesLookupKey | QueryCache.FixedKeyServesRepeat |
| src/Query/Repository.php:444-466 | `chunkById(0, ..)` takes 0 rows, keeps the last id and loops while `0 == 0` | `chunkById(0, $callback)` | end on an empty page, as `chunk` does | high; not executed | Chunking.ByIdZeroCountNeverStops | Chunking.ChunkByIdLoop |

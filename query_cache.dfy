/**
 * What the Query flavour's cache strategies and getter do, as functions of
 * the repository's own query (the one the key is computed from), the query
 * object handed to the call (the same object on the direct getter path, a
 * clone on the hydrating path), the table memo and the store.
 *
 *  - The repository's getter closure declares `($query, $method, $args)`:
 *    it adds the soft-delete test to the query it is given and runs the
 *    method on it.
 *  - `CacheById` calls the fallback with two arguments on a miss and with
 *    three on a replay; the replay filters the repository's own query.
 *  - Both strategies compute the key again when they write. When the query
 *    handed in is the repository's own, the getter's soft-delete test is
 *    in it by then.
 *
 * `corrected` / `fixedKey` select the evidently intended behaviour: the
 * fallback gets its three arguments and the write goes under the key that
 * was looked up.
 */
module QueryCache {
  import opened Php
  import opened Laravel
  import opened Exceptions
  import opened Store
  import opened Fingerprint
  import opened IdCodec
  import opened Filters
  import opened Dispatch
  import opened Naming
  import EloquentCache

  /** The foreign functions and the class `baseModel()` names. */
  datatype QEnv = QEnv(ext: Externals, baseModel: string)

  /** `base_model->getTable()` */
  function BaseTable(env: QEnv): string
  {
    env.ext.tableOf(env.baseModel)
  }

  /** `base_model->getKeyName()` */
  function KeyName(env: QEnv): string
  {
    env.ext.keyNameOf(env.baseModel)
  }

  /** `base_model->getQualifiedKeyName()`: "table.key". */
  function QualifiedKey(env: QEnv): string
  {
    BaseTable(env) + "." + KeyName(env)
  }

  /** `Arr::get($this->models_aliases, $model, $model)`: the class behind a model name or alias. */
  function ModelClass(aliases: Dict<string>, model: string): (c: string)
    ensures model !in Keys(aliases) ==> c == model
    ensures model in Keys(aliases) ==> (model, c) in aliases
  {
    match Get(aliases, model)
    case Some(m) => m
    case None => model
  }

  /**
   * `filterByNotDeleted($query)`: for a soft-deleting base model, a
   * `whereNull` on its `deleted_at` column; `column` may memoise the table.
   */
  function NotDeleted(env: QEnv, aliases: Dict<string>, tables: Dict<string>, q: QueryState): (r: (QueryState, Dict<string>))
    ensures !env.ext.softDeletes(ModelClass(aliases, env.baseModel)) ==> r == (q, tables)
    ensures env.ext.softDeletes(ModelClass(aliases, env.baseModel)) ==>
      var (col, tables') := Column(tables, aliases, env.ext.tableOf, env.baseModel, "deleted_at", Some(env.baseModel));
      r == (AddWhere(q, NullCheck(col, "and", false)), tables')
  {
    if env.ext.softDeletes(ModelClass(aliases, env.baseModel)) then
      var (col, tables') := Column(tables, aliases, env.ext.tableOf, env.baseModel, "deleted_at", Some(env.baseModel));
      (AddWhere(q, NullCheck(col, "and", false)), tables')
    else (q, tables)
  }

  /** The repository's getter closure declares `($query, $method, $args)`. */
  const QueryGetterArity: nat := 3

  /**
   * A fallback called with `passed` arguments, the query argument being `q`:
   * the repository's getter filters `q` and runs the method on it; a
   * caller's closure returns its value.
   */
  function QFall(env: QEnv, aliases: Dict<string>, tables: Dict<string>, q: QueryState,
                 f: Fallback, name: string, args: seq<Scalar>, passed: nat)
    : (r: (Result<Value, Error>, QueryState, Dict<string>))
    ensures f.RepositoryGetter? && passed < QueryGetterArity ==>
      r == (Err(ArgumentCount(passed, QueryGetterArity)), q, tables)
    ensures f.RepositoryGetter? && passed >= QueryGetterArity ==>
      var (q', tables') := NotDeleted(env, aliases, tables, q);
      r == (Ok(env.ext.execute(q', name, args)), q', tables')
    ensures f.Closure? ==> r.1 == q && r.2 == tables && (r.0.Ok? <==> f.arity <= passed)
    ensures f.Closure? && r.0.Ok? ==> r.0.value == f.result
  {
    match ArityError(f, QueryGetterArity, passed)
    case Some(e) => (Err(e), q, tables)
    case None =>
      if f.RepositoryGetter? then
        var (q', tables') := NotDeleted(env, aliases, tables, q);
        (Ok(env.ext.execute(q', name, args)), q', tables')
      else (Ok(f.result), q, tables)
  }

  /**
   * What a strategy call leaves behind: its result, the repository's own
   * query, the query handed in (equal to the own one when they are the
   * same object), the table memo and the store.
   */
  datatype QStep = QStep(result: Result<Value, Error>, own: QueryState, passed: QueryState,
                         tables: Dict<string>, entries: map<Slot, Value>)

  /** The repository's query after a replay: where state cleared, then `filterByKey($ids)`. */
  function ReplayFilter(env: QEnv, own: QueryState, ids: seq<string>): (q: QueryState)
    ensures q == AddNestedWhere(ClearWheres(own), GroupWheres(QualifiedKey(env), StrScalars(ids), "=", false), "and")
    ensures |q.wheres| == 1 && q.wheres[0].Nested?
  {
    CommonFilter(ClearWheres(own), QualifiedKey(env), Many(StrScalars(ids)), "=", env.ext.isOperator).value
  }

  /** Query CacheById's `get($query, $method, $args, $default)`. */
  function QByIdGet(env: QEnv, scope: EloquentCache.Scope, aliases: Dict<string>, tables: Dict<string>,
                    own: QueryState, passed: QueryState, aliased: bool, entries: map<Slot, Value>,
                    name: string, args: seq<Scalar>, f: Fallback, corrected: bool): (s: QStep)
    ensures aliased ==> s.own == s.passed
  {
    var p := if aliased then own else passed;
    var key := CacheKey(env.ext, ById, name, args, own);
    match Decode(LookupIn(entries, scope.tags, key))
    case Miss =>
      var (r, q', tables') := QFall(env, aliases, tables, p, f, name, args, if corrected then 3 else 2);
      var own' := if aliased then q' else own;
      if r.Err? then QStep(r, own', q', tables', entries)
      else
        var writeKey := if corrected then key else CacheKey(env.ext, ById, name, args, own');
        QStep(r, own', q', tables', Stored(entries, scope.tags, writeKey, QueryEncoding(r.value, KeyName(env)), scope.seconds))
    case EmptyCollection => QStep(Ok(Collection(EloquentCollection, [])), own, p, tables, entries)
    case NullResult => QStep(Ok(Null), own, p, tables, entries)
    case ReplayIds(ids) =>
      var own1 := ReplayFilter(env, own, ids);
      var (r, q', tables') := QFall(env, aliases, tables, if aliased then own1 else p, f, EloquentCache.Renamed(name), args, 3);
      QStep(r, if aliased then q' else own1, q', tables', entries)
    case Verbatim(v) => QStep(Ok(v), own, p, tables, entries)
  }

  /** Query CacheByResult's `get($query, $method, $args, $default)`. */
  function QByResultGet(env: QEnv, scope: EloquentCache.Scope, aliases: Dict<string>, tables: Dict<string>,
                        own: QueryState, passed: QueryState, aliased: bool, entries: map<Slot, Value>,
                        name: string, args: seq<Scalar>, f: Fallback, fixedKey: bool): (s: QStep)
    ensures aliased ==> s.own == s.passed
  {
    var p := if aliased then own else passed;
    var key := CacheKey(env.ext, ByResult, name, args, own);
    var stored := LookupIn(entries, scope.tags, key);
    if stored != Null then QStep(Ok(stored), own, p, tables, entries)
    else
      var (r, q', tables') := QFall(env, aliases, tables, p, f, name, args, 3);
      var own' := if aliased then q' else own;
      if r.Err? then QStep(r, own', q', tables', entries)
      else
        var writeKey := if fixedKey then key else CacheKey(env.ext, ByResult, name, args, own');
        QStep(r, own', q', tables', Stored(entries, scope.tags, writeKey, r.value, scope.seconds))
  }

  /** `callGetter($query, $method, $args)`: the getter itself, or the installed strategy with the getter as fallback. */
  function CallGetterStep(env: QEnv, strategy: Option<(StrategyKind, EloquentCache.Scope)>, aliases: Dict<string>,
                          tables: Dict<string>, own: QueryState, passed: QueryState, aliased: bool,
                          entries: map<Slot, Value>, name: string, args: seq<Scalar>): (s: QStep)
    ensures aliased ==> s.own == s.passed
    ensures strategy.None? ==> s.entries == entries
    ensures strategy.None? ==>
      var (q', tables') := NotDeleted(env, aliases, tables, if aliased then own else passed);
      s.result == Ok(env.ext.execute(q', name, args)) && s.passed == q' && s.tables == tables' &&
      (!aliased ==> s.own == own)
  {
    match strategy
    case None =>
      var (r, q', tables') := QFall(env, aliases, tables, if aliased then own else passed, RepositoryGetter, name, args, 3);
      QStep(r, if aliased then q' else own, q', tables', entries)
    case Some((kind, scope)) =>
      if kind == ById then QByIdGet(env, scope, aliases, tables, own, passed, aliased, entries, name, args, RepositoryGetter, false)
      else QByResultGet(env, scope, aliases, tables, own, passed, aliased, entries, name, args, RepositoryGetter, false)
  }

  // ---------------------------------------------------------------------
  // CacheById
  // ---------------------------------------------------------------------

  /**
   * As written, a miss calls the repository's three-parameter getter with
   * `($method, $args)`: PHP raises ArgumentCountError, nothing is run and
   * nothing is written.
   */
  lemma MissCallsGetterWithTwoArgs(env: QEnv, scope: EloquentCache.Scope, aliases: Dict<string>, tables: Dict<string>,
                                   own: QueryState, passed: QueryState, aliased: bool, entries: map<Slot, Value>,
                                   name: string, args: seq<Scalar>)
    requires LookupIn(entries, scope.tags, CacheKey(env.ext, ById, name, args, own)) == Null
    ensures QByIdGet(env, scope, aliases, tables, own, passed, aliased, entries, name, args, RepositoryGetter, false)
         == QStep(Err(ArgumentCount(2, 3)), own, if aliased then own else passed, tables, entries)
  {
  }

  /**
   * With three arguments, a miss runs the getter on the query handed in and
   * writes the id encoding of its result under the key that was looked up;
   * the same query asked again is then never a miss.
   */
  lemma CorrectedMissRunsGetter(env: QEnv, scope: EloquentCache.Scope, aliases: Dict<string>, tables: Dict<string>,
                                own: QueryState, passed: QueryState, aliased: bool, entries: map<Slot, Value>,
                                name: string, args: seq<Scalar>)
    requires LookupIn(entries, scope.tags, CacheKey(env.ext, ById, name, args, own)) == Null
    requires scope.seconds > 0
    ensures var s := QByIdGet(env, scope, aliases, tables, own, passed, aliased, entries, name, args, RepositoryGetter, true);
      var key := CacheKey(env.ext, ById, name, args, own);
      var (q', _) := NotDeleted(env, aliases, tables, if aliased then own else passed);
      s.result == Ok(env.ext.execute(q', name, args)) &&
      LookupIn(s.entries, scope.tags, key) == QueryEncoding(s.result.value, KeyName(env)) &&
      !Decode(LookupIn(s.entries, scope.tags, key)).Miss?
  {
    var s := QByIdGet(env, scope, aliases, tables, own, passed, aliased, entries, name, args, RepositoryGetter, true);
    var key := CacheKey(env.ext, ById, name, args, own);
    PutThenGet(entries, scope.tags, key, QueryEncoding(s.result.value, KeyName(env)), scope.seconds, scope.tags, key);
  }

  /**
   * A stored "pks:", a stored "null" and a verbatim value are answered from
   * the store alone: whatever the fallback, nothing changes.
   */
  lemma QByIdAnswersFromStore(env: QEnv, scope: EloquentCache.Scope, aliases: Dict<string>, tables: Dict<string>,
                              own: QueryState, passed: QueryState, aliased: bool, entries: map<Slot, Value>,
                              name: string, args: seq<Scalar>, f: Fallback, corrected: bool)
    requires var d := Decode(LookupIn(entries, scope.tags, CacheKey(env.ext, ById, name, args, own)));
      d.EmptyCollection? || d.NullResult? || d.Verbatim?
    ensures var s := QByIdGet(env, scope, aliases, tables, own, passed, aliased, entries, name, args, f, corrected);
      var stored := LookupIn(entries, scope.tags, CacheKey(env.ext, ById, name, args, own));
      s.own == own && s.tables == tables && s.entries == entries &&
      (stored == Str("pks:") ==> s.result == Ok(Collection(EloquentCollection, []))) &&
      (stored == Str("null") ==> s.result == Ok(Null)) &&
      (!stored.Str? ==> s.result == Ok(stored))
  {
  }

  /**
   * On the direct getter path the replay runs on the repository's own
   * query, i.e. on the id filter; nothing is written.
   */
  lemma DirectReplayRunsIdFilter(env: QEnv, scope: EloquentCache.Scope, aliases: Dict<string>, tables: Dict<string>,
                                 own: QueryState, entries: map<Slot, Value>, name: string, args: seq<Scalar>, ids: seq<string>)
    requires Decode(LookupIn(entries, scope.tags, CacheKey(env.ext, ById, name, args, own))) == ReplayIds(ids)
    ensures var s := QByIdGet(env, scope, aliases, tables, own, own, true, entries, name, args, RepositoryGetter, false);
      var (q', _) := NotDeleted(env, aliases, tables, ReplayFilter(env, own, ids));
      s.result == Ok(env.ext.execute(q', EloquentCache.Renamed(name), args)) && s.entries == entries
  {
  }

  /**
   * On the hydrating path the query handed in is a clone: the replay
   * filters the repository's query but runs the clone, without the id
   * filter and with its original wheres.
   */
  lemma HydrateReplayRunsClone(env: QEnv, scope: EloquentCache.Scope, aliases: Dict<string>, tables: Dict<string>,
                               own: QueryState, clone: QueryState, entries: map<Slot, Value>,
                               name: string, args: seq<Scalar>, ids: seq<string>)
    requires Decode(LookupIn(entries, scope.tags, CacheKey(env.ext, ById, name, args, own))) == ReplayIds(ids)
    ensures var s := QByIdGet(env, scope, aliases, tables, own, clone, false, entries, name, args, RepositoryGetter, false);
      var (q', _) := NotDeleted(env, aliases, tables, clone);
      s.result == Ok(env.ext.execute(q', EloquentCache.Renamed(name), args)) &&
      s.own == ReplayFilter(env, own, ids) && s.passed == q' && s.entries == entries
  {
  }

  // ---------------------------------------------------------------------
  // CacheByResult
  // ---------------------------------------------------------------------

  /** A non-null stored value is returned as it is, whatever the fallback; nothing changes. */
  lemma QByResultHitVerbatim(env: QEnv, scope: EloquentCache.Scope, aliases: Dict<string>, tables: Dict<string>,
                             own: QueryState, passed: QueryState, aliased: bool, entries: map<Slot, Value>,
                             name: string, args: seq<Scalar>, f: Fallback, fixedKey: bool)
    requires LookupIn(entries, scope.tags, CacheKey(env.ext, ByResult, name, args, own)) != Null
    ensures var s := QByResultGet(env, scope, aliases, tables, own, passed, aliased, entries, name, args, f, fixedKey);
      s == QStep(Ok(LookupIn(entries, scope.tags, CacheKey(env.ext, ByResult, name, args, own))),
                 own, if aliased then own else passed, tables, entries)
  {
  }

  /**
   * A null result is written as null, so the next call with the same key
   * misses and runs its fallback again.
   */
  lemma QByResultNullNeverServed(env: QEnv, scope: EloquentCache.Scope, aliases: Dict<string>, tables: Dict<string>,
                                 own: QueryState, passed: QueryState, entries: map<Slot, Value>,
                                 name: string, args: seq<Scalar>, f: Fallback)
    requires LookupIn(entries, scope.tags, CacheKey(env.ext, ByResult, name, args, own)) == Null
    requires f.Closure? && f.arity <= 3 && f.result == Null
    ensures var s := QByResultGet(env, scope, aliases, tables, own, passed, false, entries, name, args, f, true);
      s.result == Ok(Null) && LookupIn(s.entries, scope.tags, CacheKey(env.ext, ByResult, name, args, own)) == Null
  {
    var key := CacheKey(env.ext, ByResult, name, args, own);
    if scope.seconds > 0 {
      PutThenGet(entries, scope.tags, key, Null, scope.seconds, scope.tags, key);
    }
  }

  // ---------------------------------------------------------------------
  // The key drifts when the getter filters the repository's own query
  // ---------------------------------------------------------------------

  /** Foreign functions for a soft-deleting Post model whose SQL text shows whether there is a where. */
  function SoftDemo(): QEnv
  {
    QEnv(Externals(
           (s: string) => s,
           (xs: seq<Scalar>) => "[]",
           (q: QueryState) => if |q.wheres| == 0 then "select *" else "select * where",
           (q: QueryState, m: string, xs: seq<Scalar>) => Int(|q.wheres|),
           (q: QueryState, m: string, xs: seq<Scalar>) => q,
           (c: string) => "posts",
           (c: string) => "id",
           (t: string) => [],
           (c: string) => true,
           (c: string) => true,
           (o: string) => true),
         "Post")
  }

  /**
   * `max()` on a soft-deleting model with a result cache: the getter adds
   * `whereNull(deleted_at)` to the repository's own query before `write`
   * computes the key again, so the key looked up stays empty and the next
   * identical call misses too.
   */
  lemma SoftDeleteWriteMissesLookupKey(scope: EloquentCache.Scope)
    requires scope.seconds > 0 && |scope.tags| > 0
    ensures var env := SoftDemo();
      var q := Fresh(BaseTable(env));
      var s := QByResultGet(env, scope, [], [("Post", "posts")], q, q, true, map[], "max", [], RepositoryGetter, false);
      s.result == Ok(Int(1)) && LookupIn(s.entries, scope.tags, CacheKey(env.ext, ByResult, "max", [], q)) == Null
  {
    var env := SoftDemo();
    var q := Fresh(BaseTable(env));
    var (q', _) := NotDeleted(env, [], [("Post", "posts")], q);
    assert |q'.wheres| == 1;
    assert ToSql(env.ext, q) == "select *";
    assert ToSql(env.ext, q') == "select * where";
    var k, k' := CacheKey(env.ext, ByResult, "max", [], q), CacheKey(env.ext, ByResult, "max", [], q');
    assert |k| != |k'|;
  }

  /** Written under the key that was looked up, the same call is then served from the store. */
  lemma FixedKeyServesRepeat(scope: EloquentCache.Scope)
    requires scope.seconds > 0
    ensures var env := SoftDemo();
      var q := Fresh(BaseTable(env));
      var s := QByResultGet(env, scope, [], [("Post", "posts")], q, q, true, map[], "max", [], RepositoryGetter, true);
      s.result == Ok(Int(1)) && LookupIn(s.entries, scope.tags, CacheKey(env.ext, ByResult, "max", [], q)) == Int(1) &&
      QByResultGet(env, scope, [], [("Post", "posts")], q, q, true, s.entries, "max", [], RepositoryGetter, true).result == Ok(Int(1))
  {
    var env := SoftDemo();
    var q := Fresh(BaseTable(env));
    var (q', _) := NotDeleted(env, [], [("Post", "posts")], q);
    assert |q'.wheres| == 1;
    var k := CacheKey(env.ext, ByResult, "max", [], q);
    PutThenGet(map[], scope.tags, k, Int(1), scope.seconds, scope.tags, k);
  }
}

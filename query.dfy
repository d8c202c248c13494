/**
 * The Query flavour: a repository over a query builder object with its
 * naming bookkeeping (with / withFirst relations, joins, model aliases,
 * memoised table names, cached schema columns), an optional cache strategy
 * that lasts for one getter call, and the two strategy classes, which keep
 * a reference back to the repository and read and filter its query.
 */
module Query {
  import opened Php
  import opened Laravel
  import opened Exceptions
  import opened Store
  import opened Fingerprint
  import opened IdCodec
  import opened Filters
  import opened Dispatch
  import opened Naming
  import opened Hydration
  import opened QueryCache
  import EloquentCache
  import Chunking

  /** The methods `__call` runs as getters. */
  const QueryGetters: seq<string> := [
    "avg", "cursor", "delete", "doesntExist", "exists", "first", "get", "insert", "max", "min",
    "paginate", "pluck", "simplePaginate", "sum", "update"]

  /** The builder methods `__call` forwards and chains. */
  const QueryAvailables: seq<string> := [
    "distinct", "forPage", "groupBy", "orderBy", "limit", "select", "skip", "take", "whereNotNull", "whereNull"]

  /** The getters whose rows are hydrated into models. */
  const HydrateGetters: seq<string> := ["first", "get", "paginate", "simplePaginate"]

  /** The strategy a repository holds: none, or one of the two classes. */
  datatype Installed = NoCache | IdCache(byId: CacheById) | ResultCache(byResult: CacheByResult)

  function StrategyOf(i: Installed): Option<(StrategyKind, EloquentCache.Scope)>
  {
    match i
    case NoCache => None
    case IdCache(c) => Some((StrategyKind.ById, c.scope))
    case ResultCache(c) => Some((StrategyKind.ByResult, c.scope))
  }

  // ---------------------------------------------------------------------
  // callHydrateGetter
  // ---------------------------------------------------------------------

  /** `$this->hydrate ? $this->hydrate : get_class($this->base_model)` */
  function ModelHydrate(env: QEnv, hydrate: Option<string>): (m: string)
    ensures hydrate.None? ==> m == env.baseModel
    ensures hydrate.Some? && hydrate.value != "" && hydrate.value != "0" ==> m == hydrate.value
  {
    if hydrate.Some? && Truthy(SStr(hydrate.value)) then hydrate.value else env.baseModel
  }

  /** The prefix `getHydratedModels` keeps: the alias, or the (memoised) table, then "_". */
  function SearchPrefix(tables: Dict<string>, aliases: Dict<string>, tableOf: string -> string, model: string): (string, Dict<string>)
  {
    if model in Keys(aliases) then (model + "_", tables)
    else var (t, tables') := TableMemo(tables, aliases, tableOf, model); (t + "_", tables')
  }

  /** The grouping half: by the hydrated model's key, when there are joins. */
  function HydrateGroup(env: QEnv, q: QueryState, joins: seq<string>, aliases: Dict<string>, tables: Dict<string>,
                        model: string): (r: (QueryState, Dict<string>))
    ensures r.0 == q.(groups := r.0.groups)
    ensures |joins| == 0 ==> r == (q, tables)
    ensures |joins| > 0 ==> |r.0.groups| == |q.groups| + 1
  {
    if |joins| > 0 then
      var cls := ModelClass(aliases, model);
      var c := Naming.Column(tables, aliases, env.ext.tableOf, env.baseModel, env.ext.keyNameOf(cls), Some(model));
      (GroupBy(q, c.0), c.1)
    else (q, tables)
  }

  /** The select half: the model's columns, or the cached schema columns. */
  function HydrateSelect(env: QEnv, q: QueryState, aliases: Dict<string>, tables: Dict<string>,
                         isSelectColumnsModel: bool, selectList: seq<string>, model: string): (r: (QueryState, Dict<string>))
    ensures r.0 == q.(columns := r.0.columns)
    ensures !isSelectColumnsModel ==> r == (q.(columns := selectList), tables)
    ensures isSelectColumnsModel ==>
      r == (q.(columns := [Naming.Column(tables, aliases, env.ext.tableOf, env.baseModel, "*", Some(model)).0]),
            Naming.Column(tables, aliases, env.ext.tableOf, env.baseModel, "*", Some(model)).1) &&
      EndsWith(r.0.columns[0], ".*")
    ensures isSelectColumnsModel && model in Keys(aliases) ==> r == (q.(columns := [model + ".*"]), tables)
    ensures isSelectColumnsModel && model !in Keys(aliases) ==>
      r == (q.(columns := [TableMemo(tables, aliases, env.ext.tableOf, model).0 + ".*"]),
            TableMemo(tables, aliases, env.ext.tableOf, model).1)
  {
    if isSelectColumnsModel then
      var c := Naming.Column(tables, aliases, env.ext.tableOf, env.baseModel, "*", Some(model));
      assert EndsWith(c.0, ".*") by {
        assert c.0[|c.0| - 2..] == ".*";
      }
      assert model + "." + "*" == model + ".*";
      assert TableMemo(tables, aliases, env.ext.tableOf, model).0 + "." + "*"
          == TableMemo(tables, aliases, env.ext.tableOf, model).0 + ".*";
      (Select(q, [c.0]), c.1)
    else (Select(q, selectList), tables)
  }

  /** What a hydrating getter leaves behind: its result, the repository's query, the memo, the schema cache, the store. */
  datatype HStep = HStep(result: Result<Value, Error>, own: QueryState, tables: Dict<string>,
                         schema: Dict<seq<string>>, entries: map<Slot, Value>)

  /**
   * The first half of `callHydrateGetter`: the clone it runs, the table memo
   * and the schema cache after building its select list.
   */
  function HydratePrep(env: QEnv, hydrate: Option<string>, joins: seq<string>, aliases: Dict<string>,
                       withs: Dict<string>, withFirst: Dict<string>, tables: Dict<string>,
                       schema: Dict<seq<string>>, own: QueryState): (QueryState, Dict<string>, Dict<seq<string>>)
  {
    var model := ModelHydrate(env, hydrate);
    var schema' := HydrateSchema(env, withs, withFirst, joins, aliases, schema);
    var g := HydrateGroup(env, own, joins, aliases, tables, model);
    var sel := HydrateSelect(env, g.0, aliases, g.1, |withFirst| == 0, SelectList(schema'), model);
    (sel.0, sel.1, schema')
  }

  /**
   * The clone keeps the query's wheres, orders, limits and joins; it is
   * grouped by the hydrated model's key exactly when there are joins; it
   * selects that model's columns, or the cached schema columns.
   */
  lemma HydratePrepShape(env: QEnv, hydrate: Option<string>, joins: seq<string>, aliases: Dict<string>,
                         withs: Dict<string>, withFirst: Dict<string>, tables: Dict<string>,
                         schema: Dict<seq<string>>, own: QueryState)
    ensures var r := HydratePrep(env, hydrate, joins, aliases, withs, withFirst, tables, schema, own);
      r.0 == own.(groups := r.0.groups, columns := r.0.columns) &&
      (|joins| == 0 ==> r.0.groups == own.groups) &&
      (|joins| > 0 ==> |r.0.groups| == |own.groups| + 1) &&
      (|withFirst| == 0 ==> r.2 == schema && |r.0.columns| == 1 && EndsWith(r.0.columns[0], ".*")) &&
      (|withFirst| > 0 ==> r.0.columns == SelectList(r.2))
  {
  }

  /** The schema cache: only consulted (and filled) when relations are joined with `withFirst`. */
  function HydrateSchema(env: QEnv, withs: Dict<string>, withFirst: Dict<string>, joins: seq<string>,
                         aliases: Dict<string>, schema: Dict<seq<string>>): Dict<seq<string>>
  {
    if |withFirst| == 0 then schema
    else SchemaAfter(schema, BaseTable(env), withs, withFirst, joins, aliases,
                     env.ext.classExists, env.ext.tableOf, env.ext.columnListing)
  }

  /**
   * The second half: a null or failed result is passed on; any other is
   * hydrated into models of `model`, keeping its "t_" columns when the
   * schema columns were selected.
   */
  function HydrateResult(env: QEnv, aliases: Dict<string>, tables: Dict<string>, model: string, isSelect: bool,
                         result: Result<Value, Error>): (r: (Result<Value, Error>, Dict<string>))
    ensures result.Err? || result.value == Null ==> r == (result, tables)
    ensures result.Ok? && result.value != Null && isSelect ==> r == (Ok(Hydrated(result.value, "", true)), tables)
  {
    if result.Err? || result.value == Null then (result, tables)
    else if isSelect then (Ok(Hydrated(result.value, "", true)), tables)
    else
      var (search, tables') := SearchPrefix(tables, aliases, env.ext.tableOf, model);
      (Ok(Hydrated(result.value, search, false)), tables')
  }

  /** `callHydrateGetter($this->query, $method, $args)`, relations left aside. */
  function HydrateGetterStep(env: QEnv, strategy: Option<(StrategyKind, EloquentCache.Scope)>, hydrate: Option<string>,
                             joins: seq<string>, aliases: Dict<string>, withs: Dict<string>, withFirst: Dict<string>,
                             tables: Dict<string>, schema: Dict<seq<string>>, own: QueryState,
                             entries: map<Slot, Value>, name: string, args: seq<Scalar>): HStep
  {
    var prep := HydratePrep(env, hydrate, joins, aliases, withs, withFirst, tables, schema, own);
    var s := CallGetterStep(env, strategy, aliases, prep.1, own, prep.0, false, entries, name, args);
    var fin := HydrateResult(env, aliases, s.tables, ModelHydrate(env, hydrate), |withFirst| == 0, s.result);
    HStep(fin.0, s.own, fin.1, prep.2, s.entries)
  }

  /**
   * Without a strategy, or with the result strategy, a hydrating getter
   * runs entirely on the clone: the repository's own query, from which
   * the cache key is computed, is left as it was.
   */
  lemma HydrateLeavesOwnQuery(env: QEnv, strategy: Option<(StrategyKind, EloquentCache.Scope)>, hydrate: Option<string>,
                              joins: seq<string>, aliases: Dict<string>, withs: Dict<string>, withFirst: Dict<string>,
                              tables: Dict<string>, schema: Dict<seq<string>>, own: QueryState,
                              entries: map<Slot, Value>, name: string, args: seq<Scalar>)
    requires strategy.None? || strategy.value.0 == StrategyKind.ByResult
    ensures HydrateGetterStep(env, strategy, hydrate, joins, aliases, withs, withFirst, tables, schema, own, entries, name, args).own == own
  {
  }

  // ---------------------------------------------------------------------
  // join
  // ---------------------------------------------------------------------

  /** The base key of a join: a column name, or a caller's closure applied to the join clause. */
  datatype JoinBase = KeyColumn(column: string) | JoinClosure(closure: int)

  /** The `whereNull(deleted_at)` a join clause gets when the joined model soft-deletes. */
  function SoftDeleteCondition(env: QEnv, aliases: Dict<string>, tables: Dict<string>, related: string): (r: (seq<JoinCondition>, Dict<string>))
    ensures env.ext.softDeletes(ModelClass(aliases, related)) <==> |r.0| == 1
    ensures !env.ext.softDeletes(ModelClass(aliases, related)) ==> r == ([], tables)
    ensures |r.0| == 1 ==> r.0[0].NullColumn? && EndsWith(r.0[0].column, ".deleted_at")
  {
    if env.ext.softDeletes(ModelClass(aliases, related)) then
      var (c, t) := Naming.Column(tables, aliases, env.ext.tableOf, env.baseModel, "deleted_at", Some(related));
      assert EndsWith(c, ".deleted_at") by {
        assert c[|c| - |".deleted_at"|..] == ".deleted_at";
      }
      ([NullColumn(c)], t)
    else ([], tables)
  }

  /** What `join` leaves behind: its outcome, the recorded join keys, the memo, the query. */
  datatype JStep = JStep(result: Result<(), Error>, joins: seq<string>, tables: Dict<string>, query: QueryState)

  /** "(base model, or the related key for a closure)->related" */
  function JoinKeyOf(env: QEnv, related: string, baseKey: JoinBase, relatedKey: Option<string>, baseModel: Option<string>): string
  {
    JoinKey(if baseModel.None? && baseKey.JoinClosure? then relatedKey else baseModel, env.baseModel, related)
  }

  /** `join($related_model, $base_key, $related_key, $base_model, $type)` */
  function JoinStep(env: QEnv, aliases: Dict<string>, tables: Dict<string>, joins: seq<string>, q: QueryState,
                    related: string, baseKey: JoinBase, relatedKey: Option<string>, baseModel: Option<string>,
                    kind: Option<string>): JStep
  {
    var base := if baseModel.None? && baseKey.JoinClosure? then relatedKey else baseModel;
    var key := JoinKeyOf(env, related, baseKey, relatedKey, baseModel);
    if key in joins then JStep(Ok(()), joins, tables, q)
    else
      var joins' := joins + [key];
      var (table, t1) := TableMemo(tables, aliases, env.ext.tableOf, related);
      match baseKey
      case JoinClosure(id) =>
        var (conds, t2) := SoftDeleteCondition(env, aliases, t1, related);
        JStep(Ok(()), joins', t2, AddJoin(q, JoinClause(table, kind, [ByClosure(id)] + conds)))
      case KeyColumn(bk) =>
        var (first, t2) := Naming.Column(t1, aliases, env.ext.tableOf, env.baseModel, bk, base);
        match relatedKey
        case None => JStep(Err(NullForString), joins', t2, q)
        case Some(rk) =>
          var (second, t3) := Naming.Column(t2, aliases, env.ext.tableOf, env.baseModel, rk, Some(related));
          var (conds, t4) := SoftDeleteCondition(env, aliases, t3, related);
          JStep(Ok(()), joins', t4, AddJoin(q, JoinClause(table, kind, [OnColumns(first, "=", second)] + conds)))
  }

  /**
   * A join is recorded once: a new key adds exactly one join clause, on the
   * related model's table, and a repeated key changes nothing.
   */
  lemma JoinRecordedOnce(env: QEnv, aliases: Dict<string>, tables: Dict<string>, joins: seq<string>, q: QueryState,
                         related: string, baseKey: JoinBase, relatedKey: Option<string>, baseModel: Option<string>,
                         kind: Option<string>)
    ensures var key := JoinKeyOf(env, related, baseKey, relatedKey, baseModel);
      var a := JoinStep(env, aliases, tables, joins, q, related, baseKey, relatedKey, baseModel, kind);
      (key in joins ==> a == JStep(Ok(()), joins, tables, q)) &&
      (key !in joins ==> (a.joins == joins + [key] &&
        (a.result.Ok? ==> a.query.joins == q.joins + [a.query.joins[|q.joins|]] &&
                          a.query.joins[|q.joins|].table == TableMemo(tables, aliases, env.ext.tableOf, related).0 &&
                          a.query == q.(joins := a.query.joins)) &&
        (a.result.Err? ==> a.query == q)))
    ensures var a := JoinStep(env, aliases, tables, joins, q, related, baseKey, relatedKey, baseModel, kind);
      JoinStep(env, aliases, a.tables, a.joins, a.query, related, baseKey, relatedKey, baseModel, kind)
        == JStep(Ok(()), a.joins, a.tables, a.query)
  {
    var key := JoinKeyOf(env, related, baseKey, relatedKey, baseModel);
    var a := JoinStep(env, aliases, tables, joins, q, related, baseKey, relatedKey, baseModel, kind);
    if key !in joins {
      assert key in joins + [key];
    }
  }

  /**
   * A column join without a related key raises a TypeError after the key
   * was recorded; joining again with the same key is then a silent no-op,
   * so the query never gets that join.
   */
  lemma FailedJoinIsNotRetried(env: QEnv, aliases: Dict<string>, tables: Dict<string>, joins: seq<string>, q: QueryState,
                               related: string, column: string, baseModel: Option<string>, kind: Option<string>)
    requires JoinKeyOf(env, related, KeyColumn(column), None, baseModel) !in joins
    ensures var a := JoinStep(env, aliases, tables, joins, q, related, KeyColumn(column), None, baseModel, kind);
      a.result == Err(NullForString) && a.query == q &&
      JoinStep(env, aliases, a.tables, a.joins, q, related, KeyColumn(column), Some("id"), baseModel, kind)
        == JStep(Ok(()), a.joins, a.tables, q)
  {
    var key := JoinKeyOf(env, related, KeyColumn(column), None, baseModel);
    assert key == JoinKeyOf(env, related, KeyColumn(column), Some("id"), baseModel);
    assert key in joins + [key];
  }

  // ---------------------------------------------------------------------
  // The repository
  // ---------------------------------------------------------------------

  class Repository {
    const env: QEnv
    /** `get_called_class()` */
    const calledClass: string
    /** The cache behind the `Cache` facade. */
    const store: TaggedStore
    var withs: Dict<string>
    var withFirst: Dict<string>
    var joins: seq<string>
    var aliases: Dict<string>
    var hydrate: Option<string>
    /** `models_tables`, the memo of `table()` */
    var tables: Dict<string>
    var informationSchema: Dict<seq<string>>
    var query: QueryBuilder
    var cache: Installed

    /** An installed strategy belongs to this repository. */
    predicate Valid()
      reads this
    {
      (cache.IdCache? ==> cache.byId.repository == this) &&
      (cache.ResultCache? ==> cache.byResult.repository == this)
    }

    /** The state `init()` leaves: a fresh query on the base table and nothing else recorded. */
    predicate Initialised()
      reads this, query
    {
      withs == [] && joins == [] && aliases == [] && hydrate == None &&
      tables == [(env.baseModel, BaseTable(env))] && query.state == Fresh(BaseTable(env)) && cache == NoCache
    }

    constructor (env: QEnv, calledClass: string, store: TaggedStore)
      ensures this.env == env && this.calledClass == calledClass && this.store == store
      ensures Initialised() && Valid() && fresh(query)
      ensures withFirst == [] && informationSchema == []
    {
      this.env := env;
      this.calledClass := calledClass;
      this.store := store;
      withs := [];
      withFirst := [];
      joins := [];
      aliases := [];
      hydrate := None;
      tables := [(env.baseModel, env.ext.tableOf(env.baseModel))];
      informationSchema := [];
      query := new QueryBuilder(Fresh(env.ext.tableOf(env.baseModel)));
      cache := NoCache;
    }

    /** `init()`: `with_first` and `information_schema` are kept. */
    method Init()
      modifies this`withs, this`joins, this`aliases, this`hydrate, this`tables, this`query, this`cache
      ensures Initialised() && Valid() && fresh(query)
    {
      withs := [];
      joins := [];
      aliases := [];
      hydrate := None;
      tables := [(env.baseModel, BaseTable(env))];
      query := new QueryBuilder(Fresh(BaseTable(env)));
      cache := NoCache;
    }

    /** `hydrate($model)` */
    method Hydrate(model: string)
      modifies this`hydrate
      ensures hydrate == Some(model)
    {
      hydrate := Some(model);
    }

    /** `with($join_key, $model_relation_method)` */
    method With(key: string, relation: string)
      modifies this`withs, this`withFirst
      ensures (withs, withFirst) == AddWith(old(withs), old(withFirst), key, relation)
    {
      if key !in Keys(withs) {
        withs := Put(withs, key, relation);
        withFirst := DiffKeys(withFirst, withs);
      }
    }

    /** `withFirst($join_key, $model_relation_method)` */
    method WithFirst(key: string, relation: string)
      modifies this`withFirst
      ensures (withs, withFirst) == AddWithFirst(withs, old(withFirst), key, relation)
    {
      if key !in Keys(withFirst) {
        withFirst := Put(withFirst, key, relation);
        withFirst := DiffKeys(withFirst, withs);
      }
    }

    /** `addModelAlias($model, $alias)` */
    method AddModelAlias(model: string, alias: string)
      modifies this`aliases
      ensures aliases == AddAlias(old(aliases), model, alias)
    {
      if alias !in Keys(aliases) {
        aliases := Put(aliases, alias, model);
      }
    }

    /** `table($model)` */
    method Table(model: Option<string>) returns (t: string)
      modifies this`tables
      ensures (t, tables) == TableMemo(old(tables), aliases, env.ext.tableOf, if model.Some? then model.value else env.baseModel)
    {
      var m := if model.Some? then model.value else env.baseModel;
      match Get(tables, m)
      case Some(known) =>
        t := known;
      case None =>
        var w := ModelClass(aliases, m);
        t := env.ext.tableOf(w);
        if w != m {
          t := t + " as " + m;
        }
        tables := Put(tables, m, t);
    }

    /** `column($column, $model)` */
    method Column(column: string, model: Option<string>) returns (c: string)
      modifies this`tables
      ensures (c, tables) == Naming.Column(old(tables), aliases, env.ext.tableOf, env.baseModel, column, model)
    {
      if model.Some? && model.value in Keys(aliases) {
        c := model.value + "." + column;
      } else {
        var t := Table(model);
        c := t + "." + column;
      }
    }

    /** `applyCommonFilter($column, $value, $operator)` on the repository's query object. */
    method ApplyCommonFilter(column: string, value: FilterValue, op: string) returns (r: Result<(), Error>)
      modifies query
      ensures var f := CommonFilter(old(query.state), column, value, op, env.ext.isOperator);
        (f.Ok? ==> r.Ok? && query.state == f.value) &&
        (f.Err? ==> r == Err(f.error) && query.state == old(query.state))
    {
      match value
      case One(v) =>
        var w := WhereScalar(query.state, column, op, v, env.ext.isOperator);
        if w.Err? {
          return Err(w.error);
        }
        query.state := w.value;
        r := Ok(());
      case Many(vs) =>
        if !ListOperator(op) {
          return Err(InvalidOperator(op));
        }
        query.state := AddNestedWhere(query.state, GroupWheres(column, vs, op, false), "and");
        r := Ok(());
    }

    /** `filterByKey($value, $operator)`: on the qualified key. */
    method FilterByKey(value: FilterValue, op: string) returns (r: Result<(), Error>)
      modifies query
      ensures var f := CommonFilter(old(query.state), QualifiedKey(env), value, op, env.ext.isOperator);
        (f.Ok? ==> r.Ok? && query.state == f.value) &&
        (f.Err? ==> r == Err(f.error) && query.state == old(query.state))
    {
      r := ApplyCommonFilter(QualifiedKey(env), value, op);
    }

    /** `orderByKey($dir)` */
    method OrderByKey(dir: string)
      modifies query
      ensures query.state == OrderBy(old(query.state), QualifiedKey(env), dir)
    {
      query.state := OrderBy(query.state, QualifiedKey(env), dir);
    }

    /** `withCache($seconds, $tags, $strategy)` */
    method WithCache(seconds: int, tags: seq<string>, strategy: string) returns (r: Result<(), Error>)
      requires Valid()
      modifies this`cache
      ensures Valid()
      ensures r.Err? <==> SelectStrategy(strategy).Err?
      ensures r.Err? ==> r.error == CacheStrategyNotFound && cache == old(cache)
      ensures r.Ok? ==> StrategyOf(cache) == Some((SelectStrategy(strategy).value, EloquentCache.Scope(CacheTags(calledClass, tags), seconds)))
      ensures cache.IdCache? && r.Ok? ==> fresh(cache.byId)
      ensures cache.ResultCache? && r.Ok? ==> fresh(cache.byResult)
    {
      var t := CacheTags(calledClass, tags);
      match SelectStrategy(strategy)
      case Ok(kind) =>
        if kind == StrategyKind.ById {
          var c := new CacheById(this, seconds, t);
          cache := IdCache(c);
        } else {
          var c := new CacheByResult(this, seconds, t);
          cache := ResultCache(c);
        }
        r := Ok(());
      case Err(e) =>
        r := Err(e);
    }

    /** `withoutCache()` */
    method WithoutCache()
      modifies this`cache
      ensures cache == NoCache && Valid()
    {
      cache := NoCache;
    }

    /** `filterByNotDeleted($query)` */
    method FilterByNotDeleted(q: QueryBuilder)
      modifies q, this`tables
      ensures (q.state, tables) == NotDeleted(env, aliases, old(tables), old(q.state))
    {
      if env.ext.softDeletes(ModelClass(aliases, env.baseModel)) {
        var c := Column("deleted_at", Some(env.baseModel));
        q.state := AddWhere(q.state, NullCheck(c, "and", false));
      }
    }

    /** A fallback called with `passed` arguments, `q` being the query argument. */
    method RunFallback(f: Fallback, q: QueryBuilder, name: string, args: seq<Scalar>, passed: nat) returns (r: Result<Value, Error>)
      modifies q, this`tables
      ensures (r, q.state, tables) == QFall(env, aliases, old(tables), old(q.state), f, name, args, passed)
    {
      match ArityError(f, QueryGetterArity, passed)
      case Some(e) =>
        r := Err(e);
      case None =>
        if f.RepositoryGetter? {
          FilterByNotDeleted(q);
          r := Ok(env.ext.execute(q.state, name, args));
        } else {
          r := Ok(f.result);
        }
    }

    /** `callGetter($query, $method, $args)` */
    method CallGetter(q: QueryBuilder, name: string, args: seq<Scalar>) returns (r: Result<Value, Error>)
      requires Valid()
      modifies q, query, this`tables, store
      ensures var s := CallGetterStep(env, StrategyOf(cache), aliases, old(tables), old(query.state), old(q.state),
                                      q == query, old(store.entries), name, args);
        r == s.result && query.state == s.own && q.state == s.passed && tables == s.tables && store.entries == s.entries
    {
      match cache {
        case NoCache =>
          r := RunFallback(RepositoryGetter, q, name, args, 3);
        case IdCache(c) =>
          r := c.Get(q, name, args, RepositoryGetter);
        case ResultCache(c) =>
          r := c.Get(q, name, args, RepositoryGetter);
      }
    }

    /** `getColumnsFromInformationSchemaToSelect()` */
    method ColumnsToSelect() returns (columns: seq<string>)
      modifies this`informationSchema
      ensures informationSchema == SchemaAfter(old(informationSchema), BaseTable(env), withs, withFirst, joins, aliases,
                                               env.ext.classExists, env.ext.tableOf, env.ext.columnListing)
      ensures columns == SelectList(informationSchema)
    {
      informationSchema := SchemaAfter(informationSchema, BaseTable(env), withs, withFirst, joins, aliases,
                                       env.ext.classExists, env.ext.tableOf, env.ext.columnListing);
      columns := SelectList(informationSchema);
    }

    /** The prefix of `getHydratedModels`. */
    method Search(model: string) returns (search: string)
      modifies this`tables
      ensures (search, tables) == SearchPrefix(old(tables), aliases, env.ext.tableOf, model)
    {
      if model in Keys(aliases) {
        search := model + "_";
      } else {
        var t := Table(Some(model));
        search := t + "_";
      }
    }

    /** The clone `callHydrateGetter` runs, grouped and with its select list. */
    method PrepareHydrate() returns (cloned: QueryBuilder)
      modifies this`tables, this`informationSchema
      ensures fresh(cloned)
      ensures (cloned.state, tables, informationSchema)
           == HydratePrep(env, hydrate, joins, aliases, withs, withFirst, old(tables), old(informationSchema), query.state)
    {
      cloned := new QueryBuilder(query.state);
      var model := ModelHydrate(env, hydrate);
      GroupClone(cloned, model);
      SelectClone(cloned, model);
    }

    /** Prevent duplicated hydrated models when there are joins: group the clone by the model's key. */
    method GroupClone(cloned: QueryBuilder, model: string)
      requires cloned != query
      modifies cloned, this`tables
      ensures (cloned.state, tables) == HydrateGroup(env, old(cloned.state), joins, aliases, old(tables), model)
    {
      if |joins| > 0 {
        var c := Column(env.ext.keyNameOf(ModelClass(aliases, model)), Some(model));
        cloned.state := GroupBy(cloned.state, c);
      }
    }

    /** The clone's select list: the model's columns, or the cached schema columns. */
    method SelectClone(cloned: QueryBuilder, model: string)
      requires cloned != query
      modifies cloned, this`tables, this`informationSchema
      ensures informationSchema == HydrateSchema(env, withs, withFirst, joins, aliases, old(informationSchema))
      ensures (cloned.state, tables)
           == HydrateSelect(env, old(cloned.state), aliases, old(tables), |withFirst| == 0, SelectList(informationSchema), model)
    {
      if |withFirst| == 0 {
        var c := Column("*", Some(model));
        cloned.state := Select(cloned.state, [c]);
      } else {
        var columns := ColumnsToSelect();
        cloned.state := Select(cloned.state, columns);
      }
    }

    /** `processResultToHydrate` on what the getter returned, relations left aside. */
    method HydrateGetterResult(result: Result<Value, Error>) returns (r: Result<Value, Error>)
      modifies this`tables
      ensures (r, tables) == HydrateResult(env, aliases, old(tables), ModelHydrate(env, hydrate), |withFirst| == 0, result)
    {
      r := result;
      if r.Ok? && r.value != Null {
        if |withFirst| == 0 {
          var rows := HydrateRows(r.value, "", true);
          r := Ok(Package(r.value, rows));
        } else {
          var search := Search(ModelHydrate(env, hydrate));
          var rows := HydrateRows(r.value, search, false);
          r := Ok(Package(r.value, rows));
        }
      }
    }

    /** `callHydrateGetter($this->query, $method, $args)`, relations left aside. */
    method CallHydrateGetter(name: string, args: seq<Scalar>) returns (r: Result<Value, Error>)
      requires Valid()
      modifies query, this`tables, this`informationSchema, store
      ensures var h := HydrateGetterStep(env, StrategyOf(cache), hydrate, joins, aliases, withs, withFirst,
                                         old(tables), old(informationSchema), old(query.state), old(store.entries), name, args);
        r == h.result && query.state == h.own && tables == h.tables && informationSchema == h.schema && store.entries == h.entries
    {
      ghost var prep := HydratePrep(env, hydrate, joins, aliases, withs, withFirst, tables, informationSchema, query.state);
      var cloned := PrepareHydrate();
      ghost var s := CallGetterStep(env, StrategyOf(cache), aliases, prep.1, query.state, prep.0, false, store.entries, name, args);
      r := CallGetter(cloned, name, args);
      assert r == s.result && query.state == s.own && tables == s.tables && store.entries == s.entries;
      ghost var fin := HydrateResult(env, aliases, s.tables, ModelHydrate(env, hydrate), |withFirst| == 0, s.result);
      r := HydrateGetterResult(r);
      assert r == fin.0 && tables == fin.1 && informationSchema == prep.2;
    }

    /** `__call($method, $args)`: MethodNotFound, a getter followed by `init()`, or a forwarded builder method. */
    method Call(name: string, args: seq<Scalar>) returns (r: Result<Answer, Error>)
      requires Valid()
      modifies this`withs, this`joins, this`aliases, this`hydrate, this`tables, this`query, this`cache,
               this`informationSchema, query, store
      ensures Valid() && withFirst == old(withFirst)
      ensures RouteOf(name, QueryGetters, QueryAvailables) == NotFound ==>
        r == Err(MethodNotFound(calledClass, name)) && unchanged(this) && query.state == old(query.state) &&
        store.entries == old(store.entries)
      ensures RouteOf(name, QueryGetters, QueryAvailables) == AvailableRoute ==>
        r == Ok(This) && unchanged(this) && query.state == env.ext.forward(old(query.state), name, args) &&
        store.entries == old(store.entries)
      ensures name in QueryGetters && name in HydrateGetters ==>
        var h := HydrateGetterStep(env, StrategyOf(old(cache)), old(hydrate), old(joins), old(aliases), old(withs), old(withFirst),
                                   old(tables), old(informationSchema), old(query.state), old(store.entries), name, args);
        r == Lift(h.result) && store.entries == h.entries && informationSchema == h.schema &&
        (r.Ok? ==> Initialised() && fresh(query)) &&
        (r.Err? ==> query == old(query) && query.state == h.own && tables == h.tables && cache == old(cache) &&
                    withs == old(withs) && joins == old(joins) && aliases == old(aliases) && hydrate == old(hydrate))
      ensures name in QueryGetters && name !in HydrateGetters ==>
        var s := CallGetterStep(env, StrategyOf(old(cache)), old(aliases), old(tables), old(query.state), old(query.state),
                                true, old(store.entries), name, args);
        r == Lift(s.result) && store.entries == s.entries && informationSchema == old(informationSchema) &&
        (r.Ok? ==> Initialised() && fresh(query)) &&
        (r.Err? ==> query == old(query) && query.state == s.own && tables == s.tables && cache == old(cache) &&
                    withs == old(withs) && joins == old(joins) && aliases == old(aliases) && hydrate == old(hydrate))
    {
      var route := RouteOf(name, QueryGetters, QueryAvailables);
      if route == NotFound {
        return Err(MethodNotFound(calledClass, name));
      }
      if route == GetterRoute {
        var v;
        if name in HydrateGetters {
          v := CallHydrateGetter(name, args);
        } else {
          v := CallGetter(query, name, args);
        }
        r := Lift(v);
        if r.Ok? {
          Init();
        }
        return;
      }
      query.state := env.ext.forward(query.state, name, args);
      r := Ok(This);
    }

    /** `join($related_model, $base_key, $related_key, $base_model, $type)` */
    method Join(related: string, baseKey: JoinBase, relatedKey: Option<string>, baseModel: Option<string>, kind: Option<string>)
      returns (r: Result<(), Error>)
      modifies this`joins, this`tables, query
      ensures var j := JoinStep(env, aliases, old(tables), old(joins), old(query.state), related, baseKey, relatedKey, baseModel, kind);
        r == j.result && joins == j.joins && tables == j.tables && query.state == j.query
    {
      var base := if baseModel.None? && baseKey.JoinClosure? then relatedKey else baseModel;
      var key := JoinKeyOf(env, related, baseKey, relatedKey, baseModel);
      if key in joins {
        return Ok(());
      }
      joins := joins + [key];
      var table := Table(Some(related));
      match baseKey
      case JoinClosure(id) =>
        var conds := SoftDeleteJoinCondition(related);
        query.state := AddJoin(query.state, JoinClause(table, kind, [ByClosure(id)] + conds));
        r := Ok(());
      case KeyColumn(bk) =>
        var first := Column(bk, base);
        match relatedKey
        case None =>
          r := Err(NullForString);
        case Some(rk) =>
          var second := Column(rk, Some(related));
          var conds := SoftDeleteJoinCondition(related);
          query.state := AddJoin(query.state, JoinClause(table, kind, [OnColumns(first, "=", second)] + conds));
          r := Ok(());
    }

    /** `leftJoin(...)` */
    method LeftJoin(related: string, baseKey: JoinBase, relatedKey: Option<string>, baseModel: Option<string>)
      returns (r: Result<(), Error>)
      modifies this`joins, this`tables, query
      ensures var j := JoinStep(env, aliases, old(tables), old(joins), old(query.state), related, baseKey, relatedKey, baseModel, Some("left"));
        r == j.result && joins == j.joins && tables == j.tables && query.state == j.query
    {
      r := Join(related, baseKey, relatedKey, baseModel, Some("left"));
    }

    /** `rightJoin(...)` */
    method RightJoin(related: string, baseKey: JoinBase, relatedKey: Option<string>, baseModel: Option<string>)
      returns (r: Result<(), Error>)
      modifies this`joins, this`tables, query
      ensures var j := JoinStep(env, aliases, old(tables), old(joins), old(query.state), related, baseKey, relatedKey, baseModel, Some("right"));
        r == j.result && joins == j.joins && tables == j.tables && query.state == j.query
    {
      r := Join(related, baseKey, relatedKey, baseModel, Some("right"));
    }

    /** The soft-delete clause of a join's closure. */
    method SoftDeleteJoinCondition(related: string) returns (conds: seq<JoinCondition>)
      modifies this`tables
      ensures (conds, tables) == SoftDeleteCondition(env, aliases, old(tables), related)
    {
      conds := [];
      if env.ext.softDeletes(ModelClass(aliases, related)) {
        var c := Column("deleted_at", Some(related));
        conds := [NullColumn(c)];
      }
    }

    /**
     * `chunk($count, $callback)` over `rows`, the hydrated rows of the
     * ordered query; `init()` runs at the end, on both ways out.
     */
    method Chunk(count: int, rows: seq<Attrs>, callback: (seq<Attrs>, int) -> Value) returns (r: bool)
      modifies this`withs, this`joins, this`aliases, this`hydrate, this`tables, this`query, this`cache, query
      ensures r == Chunking.Chunk(rows, count, callback).result
      ensures Initialised() && fresh(query) && Valid()
    {
      if query.state.orders == [] && query.state.unionOrders == [] {
        OrderByKey("asc");
      }
      var page := 1;
      while true
        invariant page >= 1
        invariant count > 0 ==> (page - 1) * count <= |rows|
        invariant Chunking.ChunkFrom(rows, count, callback, page).result == Chunking.Chunk(rows, count, callback).result
        decreases if count > 0 then |rows| - (page - 1) * count else 0
      {
        var results := Chunking.PageOf(rows, page, count);
        if |results| == 0 {
          break;
        }
        if Chunking.Stops(callback(results, page)) {
          Init();
          return false;
        }
        if |results| != count {
          break;
        }
        Chunking.NextSkip(page, count);
        page := page + 1;
      }
      Init();
      return true;
    }

    /**
     * `chunkById($count, $callback)` over `rows` (the rows of the query in
     * key order, integer keys), ending on an empty page; `init()` runs at
     * the end, not when the order check raises.
     */
    method ChunkById(count: int, rows: seq<Attrs>, callback: seq<Attrs> -> Value) returns (r: Result<bool, Error>)
      requires Chunking.IncreasingKeys(rows, KeyName(env))
      modifies this`withs, this`joins, this`aliases, this`hydrate, this`tables, this`query, this`cache
      ensures r.Err? <==> old(query.state).orders != [] || old(query.state).unionOrders != []
      ensures r.Err? ==> r.error == CanNotSpecifyOrderByClause && unchanged(this)
      ensures r.Ok? ==> r.value == Chunking.ChunkById(rows, KeyName(env), count, callback).result
      ensures r.Ok? ==> Initialised() && fresh(query) && Valid()
    {
      if query.state.orders != [] || query.state.unionOrders != [] {
        return Err(CanNotSpecifyOrderByClause);
      }
      var done := Chunking.ChunkByIdLoop(rows, KeyName(env), count, callback);
      Init();
      return Ok(done);
    }

    /**
     * `doWhile($count, $callback)`: `answers[i]` is what the limited query
     * returns in round i. It runs on clones and leaves the repository alone.
     */
    method DoWhile(count: int, answers: seq<seq<Attrs>>, callback: seq<Attrs> -> Value) returns (r: bool)
      ensures r == Chunking.DoWhile(answers, count, callback).result
    {
      var round := 0;
      while true
        invariant round <= |answers|
        invariant Chunking.DoWhileFrom(answers, count, callback, round).result == Chunking.DoWhile(answers, count, callback).result
        decreases |answers| - round
      {
        var results := if round < |answers| then Chunking.Take(answers[round], count) else [];
        if |results| == 0 {
          break;
        }
        if Chunking.Stops(callback(results)) {
          return false;
        }
        if |results| != count {
          break;
        }
        round := round + 1;
      }
      return true;
    }
  }

  class CacheById {
    const repository: Repository
    const scope: EloquentCache.Scope

    constructor (repository: Repository, seconds: int, tags: seq<string>)
      ensures this.repository == repository && scope == EloquentCache.Scope(tags, seconds)
    {
      this.repository := repository;
      scope := EloquentCache.Scope(tags, seconds);
    }

    /** `getCacheKey($method, $args)`, over the repository's query object as it is now. */
    function GetCacheKey(name: string, args: seq<Scalar>): (key: string)
      reads repository, repository.query
      ensures key == repository.env.ext.md5(PreHash(StrategyKind.ById, name, repository.env.ext.jsonEncode(args),
                                                    ToSql(repository.env.ext, repository.query.state)))
    {
      CacheKey(repository.env.ext, StrategyKind.ById, name, args, repository.query.state)
    }

    /** `write($method, $args, $result)`: never raises. */
    method Write(name: string, args: seq<Scalar>, result: Value)
      modifies repository.store
      ensures repository.store.entries == Stored(old(repository.store.entries), scope.tags, GetCacheKey(name, args),
                                                 QueryEncoding(result, KeyName(repository.env)), scope.seconds)
    {
      repository.store.Put(scope.tags, GetCacheKey(name, args), QueryEncoding(result, KeyName(repository.env)), scope.seconds);
    }

    /** `get($query, $method, $args, $default)` */
    method Get(query: QueryBuilder, name: string, args: seq<Scalar>, f: Fallback) returns (r: Result<Value, Error>)
      modifies repository.query, query, repository`tables, repository.store
      ensures var s := QByIdGet(repository.env, scope, repository.aliases, old(repository.tables), old(repository.query.state),
                                old(query.state), query == repository.query, old(repository.store.entries), name, args, f, false);
        r == s.result && repository.query.state == s.own && query.state == s.passed &&
        repository.tables == s.tables && repository.store.entries == s.entries
    {
      var key := GetCacheKey(name, args);
      var stored := repository.store.Get(scope.tags, key);
      match Decode(stored)
      case Miss =>
        r := repository.RunFallback(f, query, name, args, 2);
        if r.Ok? {
          Write(name, args, r.value);
        }
      case EmptyCollection =>
        r := Ok(Collection(EloquentCollection, []));
      case NullResult =>
        r := Ok(Null);
      case ReplayIds(ids) =>
        repository.query.state := repository.query.state.(wheres := []);
        repository.query.state := repository.query.state.(whereBindings := []);
        var filtered := repository.FilterByKey(Many(StrScalars(ids)), "=");
        r := repository.RunFallback(f, query, EloquentCache.Renamed(name), args, 3);
      case Verbatim(v) =>
        r := Ok(v);
    }

    /** `flush()` */
    method Flush()
      modifies repository.store
      ensures repository.store.entries == Flushed(old(repository.store.entries), scope.tags)
    {
      repository.store.Flush(scope.tags);
    }
  }

  class CacheByResult {
    const repository: Repository
    const scope: EloquentCache.Scope

    constructor (repository: Repository, seconds: int, tags: seq<string>)
      ensures this.repository == repository && scope == EloquentCache.Scope(tags, seconds)
    {
      this.repository := repository;
      scope := EloquentCache.Scope(tags, seconds);
    }

    /** `getCacheKey($method, $args)`, over the repository's query object as it is now. */
    function GetCacheKey(name: string, args: seq<Scalar>): (key: string)
      reads repository, repository.query
      ensures key == repository.env.ext.md5(PreHash(StrategyKind.ByResult, name, repository.env.ext.jsonEncode(args),
                                                    ToSql(repository.env.ext, repository.query.state)))
    {
      CacheKey(repository.env.ext, StrategyKind.ByResult, name, args, repository.query.state)
    }

    /** `write($method, $args, $result)`: the result as it is. */
    method Write(name: string, args: seq<Scalar>, result: Value)
      modifies repository.store
      ensures repository.store.entries == Stored(old(repository.store.entries), scope.tags, GetCacheKey(name, args), result, scope.seconds)
    {
      repository.store.Put(scope.tags, GetCacheKey(name, args), result, scope.seconds);
    }

    /** `get($query, $method, $args, $default)` */
    method Get(query: QueryBuilder, name: string, args: seq<Scalar>, f: Fallback) returns (r: Result<Value, Error>)
      modifies repository.query, query, repository`tables, repository.store
      ensures var s := QByResultGet(repository.env, scope, repository.aliases, old(repository.tables), old(repository.query.state),
                                    old(query.state), query == repository.query, old(repository.store.entries), name, args, f, false);
        r == s.result && repository.query.state == s.own && query.state == s.passed &&
        repository.tables == s.tables && repository.store.entries == s.entries
    {
      var key := GetCacheKey(name, args);
      var stored := repository.store.Get(scope.tags, key);
      if stored == Null {
        r := repository.RunFallback(f, query, name, args, 3);
        if r.Ok? {
          Write(name, args, r.value);
        }
      } else {
        r := Ok(stored);
      }
    }

    /** `flush()` */
    method Flush()
      modifies repository.store
      ensures repository.store.entries == Flushed(old(repository.store.entries), scope.tags)
    {
      repository.store.Flush(scope.tags);
    }
  }
}

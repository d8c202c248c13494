/**
 * What the Eloquent flavour's cache strategies do, as functions of the
 * repository's model (the query the key is computed from), the store and
 * the fallback: `CacheById` (results stored as id lists and replayed) and
 * `CacheByResult` (results stored verbatim).
 *
 * Both compute the key again when they write, from the model as it is
 * after the fallback ran. The repository's own getter resets the model
 * before that (makeModel), so a miss is written under the key of the reset
 * query. `fixedKey` selects the evidently intended behaviour instead: the
 * write goes under the key that was looked up.
 */
module EloquentCache {
  import opened Php
  import opened Laravel
  import opened Exceptions
  import opened Store
  import opened Fingerprint
  import opened IdCodec
  import opened Filters
  import opened Dispatch

  /** The foreign functions and the class the repository's `model()` names. */
  datatype Env = Env(ext: Externals, modelClass: string)

  /** `makeModel()`: a new model of the class, i.e. a fresh query on its table. */
  function Initial(env: Env): QueryState
  {
    Fresh(env.ext.tableOf(env.modelClass))
  }

  /** `getModel()->getKeyName()` */
  function KeyName(env: Env): string
  {
    env.ext.keyNameOf(env.modelClass)
  }

  /** The lifetime and tag list a strategy is constructed with. */
  datatype Scope = Scope(tags: seq<string>, seconds: int)

  /** What one call leaves behind: its result, the repository's model, the store. */
  datatype Step = Step(result: Result<Value, Error>, model: QueryState, entries: map<Slot, Value>)

  /** The repository's getter closure declares `($method, $args)`. */
  const GetterArity: nat := 2

  /**
   * `$default($method, $args)`: the repository's getter runs the method on
   * the model and then resets the model; a caller's closure returns its value.
   */
  function Fall(env: Env, model: QueryState, f: Fallback, name: string, args: seq<Scalar>): (r: (Result<Value, Error>, QueryState))
    ensures f.RepositoryGetter? ==> r == (Ok(env.ext.execute(model, name, args)), Initial(env))
    ensures f.Closure? ==> r.1 == model && (r.0.Ok? <==> f.arity <= 2)
    ensures f.Closure? && r.0.Ok? ==> r.0.value == f.result
  {
    match ArityError(f, GetterArity, 2)
    case Some(e) => (Err(e), model)
    case None =>
      if f.RepositoryGetter? then (Ok(env.ext.execute(model, name, args)), Initial(env))
      else (Ok(f.result), model)
  }

  /** `if ($method === 'all') $method = 'get';` */
  function Renamed(name: string): string
  {
    if name == "all" then "get" else name
  }

  // ---------------------------------------------------------------------
  // CacheById
  // ---------------------------------------------------------------------

  /** CacheById's `write` under a given key: the encoded result, or PrimaryKeyRequired and no write. */
  function ByIdPut(env: Env, scope: Scope, entries: map<Slot, Value>, key: string, result: Value): (r: Result<map<Slot, Value>, Error>)
    ensures r.Err? <==> EloquentEncoding(result, KeyName(env)).Err?
    ensures r.Err? ==> r.error == PrimaryKeyRequired
    ensures r.Ok? ==> r.value == Stored(entries, scope.tags, key, EloquentEncoding(result, KeyName(env)).value, scope.seconds)
  {
    match EloquentEncoding(result, KeyName(env))
    case Err(e) => Err(e)
    case Ok(v) => Ok(Stored(entries, scope.tags, key, v, scope.seconds))
  }

  /** The query a replay runs: the where state cleared, then `filterByKey($ids)`. */
  function ReplayQuery(env: Env, model: QueryState, ids: seq<string>): (q: QueryState)
    ensures q.wheres == [In(KeyName(env), StrScalars(ids), "and", false)]
    ensures q.whereBindings == StrScalars(ids)
    ensures q == model.(wheres := q.wheres, whereBindings := q.whereBindings)
  {
    EloquentKeyFilter(ClearWheres(model), KeyName(env), Many(StrScalars(ids)), "=", env.ext.isOperator).value
  }

  /** CacheById's `get($method, $args, $default)`. */
  function ByIdGet(env: Env, scope: Scope, model: QueryState, entries: map<Slot, Value>,
                   name: string, args: seq<Scalar>, f: Fallback, fixedKey: bool): Step
  {
    var key := CacheKey(env.ext, ById, name, args, model);
    match Decode(LookupIn(entries, scope.tags, key))
    case Miss =>
      var (r, model') := Fall(env, model, f, name, args);
      if r.Err? then Step(r, model', entries)
      else
        var writeKey := if fixedKey then key else CacheKey(env.ext, ById, name, args, model');
        (match ByIdPut(env, scope, entries, writeKey, r.value)
         case Err(e) => Step(Err(e), model', entries)
         case Ok(entries') => Step(r, model', entries'))
    case EmptyCollection => Step(Ok(Collection(EloquentCollection, [])), model, entries)
    case NullResult => Step(Ok(Null), model, entries)
    case ReplayIds(ids) =>
      var (r, model') := Fall(env, ReplayQuery(env, model, ids), f, Renamed(name), args);
      Step(r, model', entries)
    case Verbatim(v) => Step(Ok(v), model, entries)
  }

  /**
   * A stored "pks:", a stored "null" and a verbatim value are answered from
   * the store alone: the fallback is not called (the step does not depend
   * on it) and neither the model nor the store changes.
   */
  lemma ByIdAnswersFromStore(env: Env, scope: Scope, model: QueryState, entries: map<Slot, Value>,
                             name: string, args: seq<Scalar>, f1: Fallback, f2: Fallback, fixedKey: bool)
    requires var d := Decode(LookupIn(entries, scope.tags, CacheKey(env.ext, ById, name, args, model)));
      d.EmptyCollection? || d.NullResult? || d.Verbatim?
    ensures var s := ByIdGet(env, scope, model, entries, name, args, f1, fixedKey);
      s == ByIdGet(env, scope, model, entries, name, args, f2, fixedKey) &&
      s.model == model && s.entries == entries && s.result.Ok?
    ensures var stored := LookupIn(entries, scope.tags, CacheKey(env.ext, ById, name, args, model));
      var r := ByIdGet(env, scope, model, entries, name, args, f1, fixedKey).result.value;
      (stored == Str("pks:") ==> r == Collection(EloquentCollection, [])) &&
      (stored == Str("null") ==> r == Null) &&
      (Decode(stored).Verbatim? ==> r == stored)
  {
  }

  /**
   * An id list replays: the store is left alone, the model's wheres are
   * replaced by one `whereIn(key, ids)` binding exactly the ids, and the
   * fallback runs once on that model with 'all' renamed to 'get'.
   */
  lemma ByIdReplays(env: Env, scope: Scope, model: QueryState, entries: map<Slot, Value>,
                    name: string, args: seq<Scalar>, f: Fallback, fixedKey: bool, ids: seq<string>)
    requires Decode(LookupIn(entries, scope.tags, CacheKey(env.ext, ById, name, args, model))) == ReplayIds(ids)
    ensures var s := ByIdGet(env, scope, model, entries, name, args, f, fixedKey);
      s.entries == entries &&
      (s.result, s.model) == Fall(env, ReplayQuery(env, model, ids), f, Renamed(name), args)
    ensures f.RepositoryGetter? ==>
      ByIdGet(env, scope, model, entries, name, args, f, fixedKey).result ==
        Ok(env.ext.execute(model.(wheres := [In(KeyName(env), StrScalars(ids), "and", false)], whereBindings := StrScalars(ids)),
                           if name == "all" then "get" else name, args))
  {
  }

  /**
   * On a miss the fallback runs once on the model; its result is returned
   * unchanged and its encoding written, under the key of the model as the
   * fallback left it (as written) or under the key looked up (`fixedKey`).
   * A result without a primary key writes nothing and raises PrimaryKeyRequired.
   */
  lemma ByIdMissWrites(env: Env, scope: Scope, model: QueryState, entries: map<Slot, Value>,
                       name: string, args: seq<Scalar>, f: Fallback, fixedKey: bool)
    requires LookupIn(entries, scope.tags, CacheKey(env.ext, ById, name, args, model)) == Null
    requires Fall(env, model, f, name, args).0.Ok?
    ensures var (r, model') := Fall(env, model, f, name, args);
      var s := ByIdGet(env, scope, model, entries, name, args, f, fixedKey);
      var key := if fixedKey then CacheKey(env.ext, ById, name, args, model) else CacheKey(env.ext, ById, name, args, model');
      s.model == model' &&
      match EloquentEncoding(r.value, KeyName(env))
      case Err(_) => s.result == Err(PrimaryKeyRequired) && s.entries == entries
      case Ok(v) => s.result == r && s.entries == Stored(entries, scope.tags, key, v, scope.seconds)
  {
  }

  /**
   * With the write under the looked-up key, asking again for the same query
   * is answered from the store: null comes back as null, an empty
   * collection as an empty collection, any other result by replay or as it
   * was stored, and in no case does the call miss.
   */
  lemma KeyedByIdServesRepeat(env: Env, scope: Scope, model: QueryState, entries: map<Slot, Value>,
                              name: string, args: seq<Scalar>, f: Fallback, g: Fallback)
    requires scope.seconds > 0
    requires LookupIn(entries, scope.tags, CacheKey(env.ext, ById, name, args, model)) == Null
    requires ByIdGet(env, scope, model, entries, name, args, f, true).result.Ok?
    ensures var s := ByIdGet(env, scope, model, entries, name, args, f, true);
      var key := CacheKey(env.ext, ById, name, args, model);
      var d := Decode(LookupIn(s.entries, scope.tags, key));
      !d.Miss? &&
      (s.result.value == Null ==> ByIdGet(env, scope, model, s.entries, name, args, g, true).result == Ok(Null)) &&
      (s.result.value == Collection(EloquentCollection, []) ==>
         ByIdGet(env, scope, model, s.entries, name, args, g, true).result == Ok(Collection(EloquentCollection, [])))
  {
    var key := CacheKey(env.ext, ById, name, args, model);
    var (r, model') := Fall(env, model, f, name, args);
    var v := EloquentEncoding(r.value, KeyName(env)).value;
    assert LookupIn(Stored(entries, scope.tags, key, v, scope.seconds), scope.tags, key) == v;
    assert v != Null;
    if r.value == Collection(EloquentCollection, []) {
      EmptyCollectionRoundTrip(EloquentCollection, KeyName(env));
    }
  }

  // ---------------------------------------------------------------------
  // CacheByResult
  // ---------------------------------------------------------------------

  /** CacheByResult's `get($method, $args, $default)`: a non-null stored value is the answer. */
  function ByResultGet(env: Env, scope: Scope, model: QueryState, entries: map<Slot, Value>,
                       name: string, args: seq<Scalar>, f: Fallback, fixedKey: bool): Step
  {
    var key := CacheKey(env.ext, ByResult, name, args, model);
    var hit := LookupIn(entries, scope.tags, key);
    if hit != Null then Step(Ok(hit), model, entries)
    else
      var (r, model') := Fall(env, model, f, name, args);
      if r.Err? then Step(r, model', entries)
      else
        var writeKey := if fixedKey then key else CacheKey(env.ext, ByResult, name, args, model');
        Step(r, model', Stored(entries, scope.tags, writeKey, r.value, scope.seconds))
  }

  /** A hit returns the stored value verbatim, whatever the fallback, and changes nothing. */
  lemma ByResultHitVerbatim(env: Env, scope: Scope, model: QueryState, entries: map<Slot, Value>,
                            name: string, args: seq<Scalar>, f1: Fallback, f2: Fallback, fixedKey: bool)
    requires LookupIn(entries, scope.tags, CacheKey(env.ext, ByResult, name, args, model)) != Null
    ensures var s := ByResultGet(env, scope, model, entries, name, args, f1, fixedKey);
      s == ByResultGet(env, scope, model, entries, name, args, f2, fixedKey) &&
      s == Step(Ok(LookupIn(entries, scope.tags, CacheKey(env.ext, ByResult, name, args, model))), model, entries)
  {
  }

  /**
   * A closure's non-null result is served to every later call: `get` with
   * a closure returning 1, then `get` with any other fallback, yields 1.
   */
  lemma ByResultSecondFallbackNeverRuns(env: Env, scope: Scope, model: QueryState, entries: map<Slot, Value>,
                                        name: string, args: seq<Scalar>, v: Value, g: Fallback, fixedKey: bool)
    requires scope.seconds > 0 && v != Null
    ensures var s := ByResultGet(env, scope, model, entries, name, args, Closure(0, v), fixedKey);
      ByResultGet(env, scope, s.model, s.entries, name, args, g, fixedKey).result == s.result
  {
    var key := CacheKey(env.ext, ByResult, name, args, model);
    if LookupIn(entries, scope.tags, key) == Null {
      assert LookupIn(Stored(entries, scope.tags, key, v, scope.seconds), scope.tags, key) == v;
    }
  }

  /**
   * A null result is stored as null, which reads back as a miss: the next
   * call for the same query runs its fallback again.
   */
  lemma ByResultNullNeverServed(env: Env, scope: Scope, model: QueryState, entries: map<Slot, Value>,
                                name: string, args: seq<Scalar>, f: Fallback, g: Fallback)
    requires LookupIn(entries, scope.tags, CacheKey(env.ext, ByResult, name, args, model)) == Null
    requires Fall(env, model, f, name, args).0 == Ok(Null)
    ensures var s := ByResultGet(env, scope, model, entries, name, args, f, true);
      ByResultGet(env, scope, model, s.entries, name, args, g, true).result == Fall(env, model, g, name, args).0
  {
    var key := CacheKey(env.ext, ByResult, name, args, model);
    var s := ByResultGet(env, scope, model, entries, name, args, f, true);
    assert s.entries == Stored(entries, scope.tags, key, Null, scope.seconds);
    assert LookupIn(s.entries, scope.tags, key) == Null;
  }

  // ---------------------------------------------------------------------
  // Both strategies
  // ---------------------------------------------------------------------

  /** After `flush`, every call the strategy answers misses and runs its fallback. */
  lemma FlushThenMiss(env: Env, scope: Scope, model: QueryState, entries: map<Slot, Value>,
                     name: string, args: seq<Scalar>, f: Fallback, fixedKey: bool)
    requires |scope.tags| > 0
    ensures ByIdGet(env, scope, model, Flushed(entries, scope.tags), name, args, f, fixedKey).result
         == (var r := Fall(env, model, f, name, args).0;
             if r.Ok? && EloquentEncoding(r.value, KeyName(env)).Err? then Err(PrimaryKeyRequired) else r)
    ensures ByResultGet(env, scope, model, Flushed(entries, scope.tags), name, args, f, fixedKey).result
         == Fall(env, model, f, name, args).0
  {
    FlushForgetsScope(entries, scope.tags, CacheKey(env.ext, ById, name, args, model));
    FlushForgetsScope(entries, scope.tags, CacheKey(env.ext, ByResult, name, args, model));
  }

  // ---------------------------------------------------------------------
  // A miss is written under the reset model's key
  // ---------------------------------------------------------------------

  /** Foreign functions under which SQL text tells filtered and unfiltered queries apart. */
  function DemoEnv(): Env
  {
    Env(Externals(
          (s: string) => s,
          (xs: seq<Scalar>) => "[]",
          (q: QueryState) => if |q.wheres| == 0 then "select *" else "select * where",
          (q: QueryState, m: string, xs: seq<Scalar>) => Int(|q.wheres|),
          (q: QueryState, m: string, xs: seq<Scalar>) => q,
          (c: string) => "posts",
          (c: string) => "id",
          (t: string) => [],
          (c: string) => false,
          (c: string) => true,
          (o: string) => true),
        "Post")
  }

  /** `filterByKey(1)` on a fresh Post repository. */
  function DemoFiltered(): QueryState
  {
    EloquentKeyFilter(Initial(DemoEnv()), KeyName(DemoEnv()), One(SInt(1)), "=", DemoEnv().ext.isOperator).value
  }

  /**
   * The query `filterByKey(1)->get()` misses, runs (giving 1), and is
   * written under the key of the reset, unfiltered query. The key looked up
   * stays empty, and a later unfiltered `get()`, which would give 0, is
   * served 1 from the store. This holds for both strategies.
   */
  lemma MissWritesUnderResetKey(scope: Scope)
    requires |scope.tags| > 0 && scope.seconds > 0
    ensures var env := DemoEnv();
      var s := ByIdGet(env, scope, DemoFiltered(), map[], "get", [], RepositoryGetter, false);
      s.result == Ok(Int(1)) && s.model == Initial(env) &&
      LookupIn(s.entries, scope.tags, CacheKey(env.ext, ById, "get", [], DemoFiltered())) == Null &&
      env.ext.execute(Initial(env), "get", []) == Int(0) &&
      ByIdGet(env, scope, Initial(env), s.entries, "get", [], RepositoryGetter, false).result == Ok(Int(1))
    ensures var env := DemoEnv();
      var s := ByResultGet(env, scope, DemoFiltered(), map[], "get", [], RepositoryGetter, false);
      s.result == Ok(Int(1)) &&
      LookupIn(s.entries, scope.tags, CacheKey(env.ext, ByResult, "get", [], DemoFiltered())) == Null &&
      ByResultGet(env, scope, Initial(env), s.entries, "get", [], RepositoryGetter, false).result == Ok(Int(1))
  {
    var env := DemoEnv();
    var q, q0 := DemoFiltered(), Initial(env);
    assert ToSql(env.ext, q) == "select * where";
    assert ToSql(env.ext, q0) == "select *";
    var ki, ki0 := CacheKey(env.ext, ById, "get", [], q), CacheKey(env.ext, ById, "get", [], q0);
    var kr, kr0 := CacheKey(env.ext, ByResult, "get", [], q), CacheKey(env.ext, ByResult, "get", [], q0);
    assert |ki| != |ki0| && |kr| != |kr0|;
    assert EloquentEncoding(Int(1), KeyName(env)) == Ok(Int(1));
  }

  /** With the write under the looked-up key, the same sequence serves the filtered query and leaves the unfiltered one alone. */
  lemma KeyedMissServesSameQuery(scope: Scope)
    requires |scope.tags| > 0 && scope.seconds > 0
    ensures var env := DemoEnv();
      var s := ByIdGet(env, scope, DemoFiltered(), map[], "get", [], RepositoryGetter, true);
      s.result == Ok(Int(1)) &&
      LookupIn(s.entries, scope.tags, CacheKey(env.ext, ById, "get", [], DemoFiltered())) == Int(1) &&
      ByIdGet(env, scope, Initial(env), s.entries, "get", [], RepositoryGetter, true).result == Ok(Int(0))
  {
    var env := DemoEnv();
    var q, q0 := DemoFiltered(), Initial(env);
    assert ToSql(env.ext, q) == "select * where";
    assert ToSql(env.ext, q0) == "select *";
    var ki, ki0 := CacheKey(env.ext, ById, "get", [], q), CacheKey(env.ext, ById, "get", [], q0);
    assert |ki| != |ki0|;
    assert EloquentEncoding(Int(1), KeyName(env)) == Ok(Int(1));
    assert EloquentEncoding(Int(0), KeyName(env)) == Ok(Int(0));
  }
}

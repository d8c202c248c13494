/**
 * The Eloquent flavour: a repository holding a model (an Eloquent builder,
 * here its query state) and an optional cache strategy, and the two
 * strategy classes, which keep a reference back to their repository and
 * read and reset its model.
 */
module Eloquent {
  import opened Php
  import opened Laravel
  import opened Exceptions
  import opened Store
  import opened Fingerprint
  import opened IdCodec
  import opened Filters
  import opened Dispatch
  import opened EloquentCache
  import Chunking

  /** The methods `__call` runs as getters. */
  const Getters: seq<string> := [
    "all", "avg", "count", "create", "cursor", "delete", "doesntExist", "exists", "find", "findOrFail",
    "first", "firstOrCreate", "firstOrFail", "get", "insert", "max", "min", "paginate", "pluck",
    "simplePaginate", "sum", "update", "updateOrCreate", "latest"]

  /** The builder methods `__call` forwards and chains. */
  const Availables: seq<string> := [
    "distinct", "forPage", "groupBy", "has", "limit", "orHas", "select", "skip", "take", "whereNotNull",
    "whereNull", "with", "withCount"]

  /** The strategy a repository holds: none, or one of the two classes. */
  datatype Installed = NoCache | IdCache(byId: CacheById) | ResultCache(byResult: CacheByResult)

  /** The kind and scope of the installed strategy. */
  function StrategyOf(i: Installed): Option<(StrategyKind, Scope)>
  {
    match i
    case NoCache => None
    case IdCache(c) => Some((StrategyKind.ById, c.scope))
    case ResultCache(c) => Some((StrategyKind.ByResult, c.scope))
  }

  /**
   * `__call($method, $args)` on the repository's model and the store: its
   * answer, the model and the store afterwards. The repository's getter is
   * the fallback, and the strategy's write goes where the source puts it.
   */
  function CallStep(env: Env, calledClass: string, strategy: Option<(StrategyKind, Scope)>,
                    model: QueryState, entries: map<Slot, Value>, name: string, args: seq<Scalar>)
    : (Result<Answer, Error>, QueryState, map<Slot, Value>)
  {
    match RouteOf(name, Getters, Availables)
    case NotFound => (Err(MethodNotFound(calledClass, name)), model, entries)
    case AvailableRoute => (Ok(This), env.ext.forward(model, name, args), entries)
    case GetterRoute =>
      match strategy
      case None =>
        var (r, model') := Fall(env, model, RepositoryGetter, name, args);
        (Lift(r), model', entries)
      case Some((kind, scope)) =>
        var s := if kind == StrategyKind.ById then ByIdGet(env, scope, model, entries, name, args, RepositoryGetter, false)
                 else ByResultGet(env, scope, model, entries, name, args, RepositoryGetter, false);
        (Lift(s.result), s.model, s.entries)
  }

  /** A name outside both lists raises MethodNotFound and changes nothing. */
  lemma UnknownMethodFails(env: Env, calledClass: string, strategy: Option<(StrategyKind, Scope)>,
                           model: QueryState, entries: map<Slot, Value>, name: string, args: seq<Scalar>)
    requires name !in Getters && name !in Availables
    ensures CallStep(env, calledClass, strategy, model, entries, name, args)
         == (Err(MethodNotFound(calledClass, name)), model, entries)
  {
  }

  /** An available method replaces the model with the builder's answer and returns the repository. */
  lemma AvailableChains(env: Env, calledClass: string, strategy: Option<(StrategyKind, Scope)>,
                        model: QueryState, entries: map<Slot, Value>, name: string, args: seq<Scalar>)
    requires name in Availables
    ensures CallStep(env, calledClass, strategy, model, entries, name, args)
         == (Ok(This), env.ext.forward(model, name, args), entries)
  {
    assert forall i :: 0 <= i < |Getters| ==> Getters[i] !in Availables;
  }

  /**
   * Without a strategy a getter runs on the model and resets it; with one,
   * its answer is exactly the strategy's `get` with the repository's getter
   * as fallback. The store is only ever changed by a strategy.
   */
  lemma GetterRoutes(env: Env, calledClass: string, strategy: Option<(StrategyKind, Scope)>,
                     model: QueryState, entries: map<Slot, Value>, name: string, args: seq<Scalar>)
    requires name in Getters
    ensures strategy.None? ==>
      CallStep(env, calledClass, strategy, model, entries, name, args)
        == (Ok(Gave(env.ext.execute(model, name, args))), Initial(env), entries)
    ensures strategy.Some? && strategy.value.0 == StrategyKind.ById ==>
      var s := ByIdGet(env, strategy.value.1, model, entries, name, args, RepositoryGetter, false);
      CallStep(env, calledClass, strategy, model, entries, name, args) == (Lift(s.result), s.model, s.entries)
    ensures strategy.Some? && strategy.value.0 == StrategyKind.ByResult ==>
      var s := ByResultGet(env, strategy.value.1, model, entries, name, args, RepositoryGetter, false);
      CallStep(env, calledClass, strategy, model, entries, name, args) == (Lift(s.result), s.model, s.entries)
  {
  }

  /**
   * Through the repository, the filtered query `where(id, =, 1)->get()` is
   * never served from the store: asked twice, it runs twice.
   */
  lemma RepeatedFilteredGetRunsAgain(calledClass: string, scope: Scope)
    requires |scope.tags| > 0 && scope.seconds > 0
    ensures var env := DemoEnv();
      var first := CallStep(env, calledClass, Some((StrategyKind.ById, scope)), DemoFiltered(), map[], "get", []);
      var second := CallStep(env, calledClass, Some((StrategyKind.ById, scope)), DemoFiltered(), first.2, "get", []);
      first.0 == Ok(Gave(Int(1))) && second.0 == Ok(Gave(Int(1))) && second.1 == Initial(env) &&
      LookupIn(first.2, scope.tags, CacheKey(env.ext, StrategyKind.ById, "get", [], DemoFiltered())) == Null
  {
    assert "get" in Getters;
    MissWritesUnderResetKey(scope);
  }

  class Repository {
    const env: Env
    /** `get_called_class()` */
    const calledClass: string
    /** The cache behind the `Cache` facade. */
    const store: TaggedStore
    var model: QueryState
    var cache: Installed

    /** An installed strategy belongs to this repository. */
    predicate Valid()
      reads this
    {
      (cache.IdCache? ==> cache.byId.repository == this) &&
      (cache.ResultCache? ==> cache.byResult.repository == this)
    }

    constructor (env: Env, calledClass: string, store: TaggedStore)
      ensures Valid()
      ensures this.env == env && this.calledClass == calledClass && this.store == store
      ensures model == Initial(env) && cache == NoCache
    {
      this.env := env;
      this.calledClass := calledClass;
      this.store := store;
      model := Initial(env);
      cache := NoCache;
    }

    /** `makeModel()` */
    method MakeModel()
      modifies this`model
      ensures model == Initial(env)
    {
      model := Initial(env);
    }

    /** `filterByKey($value, $operator)` */
    method FilterByKey(value: FilterValue, op: string) returns (r: Result<(), Error>)
      modifies this`model
      ensures var f := EloquentKeyFilter(old(model), KeyName(env), value, op, env.ext.isOperator);
        (f.Ok? ==> r.Ok? && model == f.value) &&
        (f.Err? ==> r == Err(f.error) && model == old(model))
    {
      match EloquentKeyFilter(model, KeyName(env), value, op, env.ext.isOperator)
      case Ok(q) =>
        model := q;
        r := Ok(());
      case Err(e) =>
        r := Err(e);
    }

    /** `orderByKey($dir)` */
    method OrderByKey(dir: string)
      modifies this`model
      ensures model == OrderBy(old(model), KeyName(env), dir)
    {
      model := OrderBy(model, KeyName(env), dir);
    }

    /** `getCache()` */
    function GetCache(): (c: Installed)
      reads this
      ensures c == cache
    {
      cache
    }

    /** `withCache($seconds, $tags, $strategy)` */
    method WithCache(seconds: int, tags: seq<string>, strategy: string) returns (r: Result<(), Error>)
      modifies this`cache
      ensures Valid()
      ensures r.Err? <==> SelectStrategy(strategy).Err?
      ensures r.Err? ==> r.error == CacheStrategyNotFound && cache == old(cache)
      ensures r.Ok? ==> StrategyOf(cache) == Some((SelectStrategy(strategy).value, Scope(CacheTags(calledClass, tags), seconds)))
      ensures cache.IdCache? && r.Ok? ==> fresh(cache.byId)
      ensures cache.ResultCache? && r.Ok? ==> fresh(cache.byResult)
      requires Valid()
    {
      var t := CacheTags(calledClass, tags);
      match SelectStrategy(strategy)
      case Ok(kind) =>
        if kind == StrategyKind.ById {
          var c := new CacheById(this, seconds, t);
          cache := IdCache(c);
        } else {
          var c := new CacheByResult(this, seconds, t);
          cache := ResultCache(c);
        }
        r := Ok(());
      case Err(e) =>
        r := Err(e);
    }

    /** `withoutCache()` */
    method WithoutCache()
      modifies this`cache
      ensures cache == NoCache && Valid()
    {
      cache := NoCache;
    }

    /** The closure `__call` hands a strategy, or any other fallback, called as `$default($method, $args)`. */
    method RunFallback(f: Fallback, name: string, args: seq<Scalar>) returns (r: Result<Value, Error>)
      modifies this`model
      ensures (r, model) == Fall(env, old(model), f, name, args)
    {
      match ArityError(f, GetterArity, 2)
      case Some(e) =>
        r := Err(e);
      case None =>
        if f.RepositoryGetter? {
          var v := env.ext.execute(model, name, args);
          MakeModel();
          r := Ok(v);
        } else {
          r := Ok(f.result);
        }
    }

    /** `__call($method, $args)`: MethodNotFound, a getter, or a forwarded builder method. */
    method Call(name: string, args: seq<Scalar>) returns (r: Result<Answer, Error>)
      requires Valid()
      modifies this`model, store
      ensures Valid() && cache == old(cache)
      ensures (r, model, store.entries) == CallStep(env, calledClass, StrategyOf(cache), old(model), old(store.entries), name, args)
    {
      var route := RouteOf(name, Getters, Availables);
      if route == NotFound {
        return Err(MethodNotFound(calledClass, name));
      }
      if route == GetterRoute {
        match cache {
          case NoCache =>
            var v := RunFallback(RepositoryGetter, name, args);
            r := Lift(v);
          case IdCache(c) =>
            var v := c.Get(name, args, RepositoryGetter);
            r := Lift(v);
          case ResultCache(c) =>
            var v := c.Get(name, args, RepositoryGetter);
            r := Lift(v);
        }
        return;
      }
      model := env.ext.forward(model, name, args);
      r := Ok(This);
    }

    /**
     * `chunk($count, $callback)` over `rows`, the rows the ordered query
     * holds: pages 1, 2, ... are `forPage` of them. The key order is added
     * to the repository's own model when it has none.
     */
    method Chunk(count: int, rows: seq<Attrs>, callback: (seq<Attrs>, int) -> Value) returns (r: bool)
      modifies this`model
      ensures model == if old(model).orders == [] && old(model).unionOrders == [] then OrderBy(old(model), KeyName(env), "asc") else old(model)
      ensures r == Chunking.Chunk(rows, count, callback).result
    {
      if model.orders == [] && model.unionOrders == [] {
        OrderByKey("asc");
      }
      var page := 1;
      while true
        invariant page >= 1
        invariant count > 0 ==> (page - 1) * count <= |rows|
        invariant model == if old(model).orders == [] && old(model).unionOrders == [] then OrderBy(old(model), KeyName(env), "asc") else old(model)
        invariant Chunking.ChunkFrom(rows, count, callback, page).result == Chunking.Chunk(rows, count, callback).result
        decreases if count > 0 then |rows| - (page - 1) * count else 0
      {
        var results := Chunking.PageOf(rows, page, count);
        if |results| == 0 {
          break;
        }
        if Chunking.Stops(callback(results, page)) {
          return false;
        }
        if |results| != count {
          break;
        }
        Chunking.NextSkip(page, count);
        page := page + 1;
      }
      return true;
    }

    /**
     * `chunkById($count, $callback)` over `rows` (the rows of the query in
     * key order, integer keys), ending on an empty page. The loop runs on a
     * clone: the repository's model does not change.
     */
    method ChunkById(count: int, rows: seq<Attrs>, callback: seq<Attrs> -> Value) returns (r: Result<bool, Error>)
      requires Chunking.IncreasingKeys(rows, KeyName(env))
      ensures r.Err? <==> model.orders != [] || model.unionOrders != []
      ensures r.Err? ==> r.error == CanNotSpecifyOrderByClause
      ensures r.Ok? ==> r.value == Chunking.ChunkById(rows, KeyName(env), count, callback).result
    {
      if model.orders != [] || model.unionOrders != [] {
        return Err(CanNotSpecifyOrderByClause);
      }
      var done := Chunking.ChunkByIdLoop(rows, KeyName(env), count, callback);
      return Ok(done);
    }
  }

  class CacheById {
    const repository: Repository
    const scope: Scope

    constructor (repository: Repository, seconds: int, tags: seq<string>)
      ensures this.repository == repository && scope == Scope(tags, seconds)
    {
      this.repository := repository;
      scope := Scope(tags, seconds);
    }

    /** `getCacheKey($method, $args)`, over the repository's current model. */
    function GetCacheKey(name: string, args: seq<Scalar>): (key: string)
      reads repository
      ensures key == repository.env.ext.md5(PreHash(StrategyKind.ById, name, repository.env.ext.jsonEncode(args),
                                                    ToSql(repository.env.ext, repository.model)))
    {
      CacheKey(repository.env.ext, StrategyKind.ById, name, args, repository.model)
    }

    /** `write($method, $args, $result)` */
    method Write(name: string, args: seq<Scalar>, result: Value) returns (r: Result<(), Error>)
      modifies repository.store
      ensures var w := ByIdPut(repository.env, scope, old(repository.store.entries), GetCacheKey(name, args), result);
        (w.Ok? ==> r.Ok? && repository.store.entries == w.value) &&
        (w.Err? ==> r == Err(w.error) && repository.store.entries == old(repository.store.entries))
    {
      match EloquentEncoding(result, KeyName(repository.env))
      case Err(e) =>
        r := Err(e);
      case Ok(v) =>
        repository.store.Put(scope.tags, GetCacheKey(name, args), v, scope.seconds);
        r := Ok(());
    }

    /** `get($method, $args, $default)` */
    method Get(name: string, args: seq<Scalar>, f: Fallback) returns (r: Result<Value, Error>)
      modifies repository`model, repository.store
      ensures var s := ByIdGet(repository.env, scope, old(repository.model), old(repository.store.entries), name, args, f, false);
        r == s.result && repository.model == s.model && repository.store.entries == s.entries
    {
      var key := GetCacheKey(name, args);
      var stored := repository.store.Get(scope.tags, key);
      match Decode(stored)
      case Miss =>
        r := repository.RunFallback(f, name, args);
        if r.Ok? {
          var w := Write(name, args, r.value);
          if w.Err? {
            r := Err(w.error);
          }
        }
      case EmptyCollection =>
        r := Ok(Collection(EloquentCollection, []));
      case NullResult =>
        r := Ok(Null);
      case ReplayIds(ids) =>
        repository.model := repository.model.(wheres := []);
        repository.model := repository.model.(whereBindings := []);
        var filtered := repository.FilterByKey(Many(StrScalars(ids)), "=");
        r := repository.RunFallback(f, Renamed(name), args);
      case Verbatim(v) =>
        r := Ok(v);
    }

    /** `flush()` */
    method Flush()
      modifies repository.store
      ensures repository.store.entries == Flushed(old(repository.store.entries), scope.tags)
    {
      repository.store.Flush(scope.tags);
    }
  }

  class CacheByResult {
    const repository: Repository
    const scope: Scope

    constructor (repository: Repository, seconds: int, tags: seq<string>)
      ensures this.repository == repository && scope == Scope(tags, seconds)
    {
      this.repository := repository;
      scope := Scope(tags, seconds);
    }

    /** `getCacheKey($method, $args)`, over the repository's current model. */
    function GetCacheKey(name: string, args: seq<Scalar>): (key: string)
      reads repository
      ensures key == repository.env.ext.md5(PreHash(StrategyKind.ByResult, name, repository.env.ext.jsonEncode(args),
                                                    ToSql(repository.env.ext, repository.model)))
    {
      CacheKey(repository.env.ext, StrategyKind.ByResult, name, args, repository.model)
    }

    /** `write($method, $args, $result)`: the result as it is. */
    method Write(name: string, args: seq<Scalar>, result: Value)
      modifies repository.store
      ensures repository.store.entries == Stored(old(repository.store.entries), scope.tags, GetCacheKey(name, args), result, scope.seconds)
    {
      repository.store.Put(scope.tags, GetCacheKey(name, args), result, scope.seconds);
    }

    /** `get($method, $args, $default)` */
    method Get(name: string, args: seq<Scalar>, f: Fallback) returns (r: Result<Value, Error>)
      modifies repository`model, repository.store
      ensures var s := ByResultGet(repository.env, scope, old(repository.model), old(repository.store.entries), name, args, f, false);
        r == s.result && repository.model == s.model && repository.store.entries == s.entries
    {
      var key := GetCacheKey(name, args);
      var stored := repository.store.Get(scope.tags, key);
      if stored == Null {
        r := repository.RunFallback(f, name, args);
        if r.Ok? {
          Write(name, args, r.value);
        }
      } else {
        r := Ok(stored);
      }
    }

    /** `flush()` */
    method Flush()
      modifies repository.store
      ensures repository.store.entries == Flushed(old(repository.store.entries), scope.tags)
    {
      repository.store.Flush(scope.tags);
    }
  }
}

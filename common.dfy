/**
 * What the two repository facades share: the closed method lists `__call`
 * routes over, the strategy selection and tag list of `withCache`, `when`,
 * and the fallback a cache strategy runs on a miss.
 */
module Dispatch {
  import opened Php
  import opened Exceptions
  import opened Store
  import opened Fingerprint

  // ---------------------------------------------------------------------
  // __call
  // ---------------------------------------------------------------------

  /** Where `__call` sends a method name. */
  datatype Route = NotFound | GetterRoute | AvailableRoute

  /**
   * `in_array($method, array_merge($getters, $availables))`, then
   * `in_array($method, $getters)`: getters win when a name is in both.
   */
  function RouteOf(name: string, getters: seq<string>, availables: seq<string>): (r: Route)
    ensures r == NotFound <==> name !in getters && name !in availables
    ensures r == GetterRoute <==> name in getters
    ensures r == AvailableRoute <==> name !in getters && name in availables
  {
    if name !in getters + availables then NotFound
    else if name in getters then GetterRoute
    else AvailableRoute
  }

  /** What `__call` hands back: the repository itself, or a getter's result. */
  datatype Answer = This | Gave(v: Value)

  /** A getter's result as `__call` returns it; an exception passes through. */
  function Lift(r: Result<Value, Error>): (a: Result<Answer, Error>)
    ensures a.Ok? <==> r.Ok?
    ensures r.Ok? ==> a.value == Gave(r.value)
    ensures r.Err? ==> a.error == r.error
  {
    match r
    case Ok(v) => Ok(Gave(v))
    case Err(e) => Err(e)
  }

  // ---------------------------------------------------------------------
  // withCache
  // ---------------------------------------------------------------------

  /** The `switch ($strategy)` of `withCache`. */
  function SelectStrategy(strategy: string): (r: Result<StrategyKind, Error>)
    ensures r == Ok(ById) <==> strategy == "id"
    ensures r == Ok(ByResult) <==> strategy == "result"
    ensures r.Err? <==> strategy != "id" && strategy != "result"
    ensures r.Err? ==> r.error == CacheStrategyNotFound
  {
    if strategy == "id" then Ok(ById)
    else if strategy == "result" then Ok(ByResult)
    else Err(CacheStrategyNotFound)
  }

  /** `array_merge([get_called_class()], $cache_tags)` for a list of tags. */
  function CacheTags(calledClass: string, tags: seq<string>): (r: seq<string>)
    ensures |r| == |tags| + 1 && r[0] == calledClass && r[1..] == tags
  {
    [calledClass] + tags
  }

  /**
   * Every strategy a repository class installs is tagged with the class,
   * so flushing any one of them drops what every other one has stored.
   */
  lemma FlushReachesSiblings(entries: map<Slot, Value>, calledClass: string, tags1: seq<string>, tags2: seq<string>, key: string)
    ensures LookupIn(Flushed(entries, CacheTags(calledClass, tags1)), CacheTags(calledClass, tags2), key) == Null
  {
    var t1, t2 := CacheTags(calledClass, tags1), CacheTags(calledClass, tags2);
    assert t1[0] in t1 && t2[0] in t2;
    assert SharesTag(t2, t1);
  }

  /** Strategies of two repository classes with no caller tag in common never flush each other. */
  lemma FlushSparesOtherClasses(entries: map<Slot, Value>, class1: string, class2: string, tags1: seq<string>, tags2: seq<string>, key: string)
    requires class1 != class2 && class1 !in tags2 && class2 !in tags1
    requires forall t :: t in tags1 ==> t !in tags2
    ensures LookupIn(Flushed(entries, CacheTags(class1, tags1)), CacheTags(class2, tags2), key)
         == LookupIn(entries, CacheTags(class2, tags2), key)
  {
    var t1, t2 := CacheTags(class1, tags1), CacheTags(class2, tags2);
    forall t | t in t2 ensures t !in t1 {
      assert t == class2 || t in tags2 by {
        assert t2 == [class2] + tags2;
      }
      assert t1 == [class1] + tags1;
    }
    FlushKeepsUnrelated(entries, t1, t2, key);
  }

  // ---------------------------------------------------------------------
  // when
  // ---------------------------------------------------------------------

  /** PHP truthiness of a getter or callback result: every object is truthy. */
  predicate ValueTruthy(v: Value)
  {
    match v
    case Null => false
    case Bool(b) => b
    case Int(i) => i != 0
    case Str(s) => s != "" && s != "0"
    case _ => true
  }

  /** `$x ?: $this` */
  function OrThis(a: Answer): Answer
  {
    if a.Gave? && !ValueTruthy(a.v) then This else a
  }

  /**
   * `when($value, $callback, $default)`: the callback's answer when the value
   * is truthy, else the default's answer when there is a default, else the
   * repository; a falsy answer becomes the repository.
   */
  function When(value: Scalar, callback: Scalar -> Answer, default: Option<Scalar -> Answer>): (r: Answer)
    ensures r == This || (r.Gave? && ValueTruthy(r.v))
    ensures Truthy(value) && callback(value).Gave? && ValueTruthy(callback(value).v) ==> r == callback(value)
    ensures !Truthy(value) && default.None? ==> r == This
    ensures r != This ==>
      (Truthy(value) && r == callback(value)) ||
      (!Truthy(value) && default.Some? && r == default.value(value))
  {
    if Truthy(value) then OrThis(callback(value))
    else if default.Some? then OrThis(default.value(value))
    else This
  }

  // ---------------------------------------------------------------------
  // Fallbacks
  // ---------------------------------------------------------------------

  /**
   * The callable a strategy's `get` receives: the repository's own getter
   * closure, or a caller's closure, known by the number of parameters it
   * declares and the value it returns.
   */
  datatype Fallback = RepositoryGetter | Closure(arity: nat, result: Value)

  /**
   * PHP's check on calling a closure with `passed` arguments: a closure that
   * declares more parameters raises ArgumentCountError; surplus arguments
   * are ignored. `getterArity` is what the repository's getter declares.
   */
  function ArityError(f: Fallback, getterArity: nat, passed: nat): (r: Option<Error>)
    ensures r.None? <==> passed >= (if f.RepositoryGetter? then getterArity else f.arity)
    ensures r.Some? ==> r.value == ArgumentCount(passed, if f.RepositoryGetter? then getterArity else f.arity)
  {
    var declared := if f.RepositoryGetter? then getterArity else f.arity;
    if passed < declared then Some(ArgumentCount(passed, declared)) else None
  }
}

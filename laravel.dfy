/**
 * The parts of Laravel the caching layer drives: the state of a query
 * builder, the builder calls the repositories make on it (where, whereIn,
 * nested where, orderBy, forPage, take, select, groupBy, join), the mutable
 * builder object, and the framework calls that stay foreign (md5,
 * json_encode, SQL compilation, running a query, schema and model lookups).
 */
module Laravel {
  import opened Php
  import opened Exceptions

  /** One entry of a builder's `wheres`. */
  datatype Where =
    | Basic(column: string, operator: string, value: Scalar, boolean: string)
    | In(column: string, values: seq<Scalar>, boolean: string, not: bool)
    | NullCheck(column: string, boolean: string, not: bool)
    | Nested(wheres: seq<Where>, boolean: string)

  datatype Order = Order(column: string, direction: string)

  /** One condition of a join clause. */
  datatype JoinCondition =
    | OnColumns(first: string, operator: string, second: string)
    | ByClosure(closure: int)           // a caller's closure, applied to the clause
    | NullColumn(column: string)        // whereNull(deleted_at) for soft-deleting models

  datatype JoinClause = JoinClause(table: string, kind: Option<string>, conditions: seq<JoinCondition>)

  /** The state of an Illuminate\Database\Query\Builder. */
  datatype QueryState = QueryState(
    from: string,
    columns: seq<string>,
    joins: seq<JoinClause>,
    wheres: seq<Where>,
    whereBindings: seq<Scalar>,
    otherBindings: seq<Scalar>,   // the select, join, having, order and union bindings
    groups: seq<string>,
    orders: seq<Order>,
    unionOrders: seq<Order>,
    limit: Option<int>,
    offset: Option<int>)

  /** A fresh builder on one table (`DB::connection(..)->table(..)`, or a model's newQuery). */
  function Fresh(table: string): (q: QueryState)
    ensures q.wheres == [] && q.whereBindings == [] && q.orders == [] && q.unionOrders == []
    ensures q.from == table
  {
    QueryState(table, [], [], [], [], [], [], [], [], None, None)
  }

  /** The values a where entry binds, in placeholder order. */
  function WhereBindings(w: Where): seq<Scalar>
    decreases w
  {
    match w
    case Basic(_, _, v, _) => [v]
    case In(_, vs, _, _) => vs
    case NullCheck(_, _, _) => []
    case Nested(ws, _) => WhereListBindings(ws)
  }

  function WhereListBindings(ws: seq<Where>): seq<Scalar>
    decreases ws
  {
    if |ws| == 0 then [] else WhereBindings(ws[0]) + WhereListBindings(ws[1..])
  }

  /** Appends one where entry and its bindings. */
  function AddWhere(q: QueryState, w: Where): (r: QueryState)
    ensures r.wheres == q.wheres + [w]
    ensures r.whereBindings == q.whereBindings + WhereBindings(w)
    ensures r == q.(wheres := r.wheres, whereBindings := r.whereBindings)
  {
    q.(wheres := q.wheres + [w], whereBindings := q.whereBindings + WhereBindings(w))
  }

  /** `$q->where(Closure)`: a nested group, added only when the closure added something. */
  function AddNestedWhere(q: QueryState, inner: seq<Where>, boolean: string): QueryState
  {
    if |inner| == 0 then q else AddWhere(q, Nested(inner, boolean))
  }

  /** The operators `where` accepts with a null value. */
  predicate NullOperator(op: string)
  {
    op == "=" || op == "<>" || op == "!="
  }

  /**
   * `where($column, $operator, $value)` with a scalar value. An operator
   * the builder does not know is taken as the value and compared with `=`.
   * A null value with a known operator other than `=`, `<>` and `!=` is an
   * illegal combination; with one of those three it becomes `whereNull`,
   * or `whereNotNull` for anything but `=`, and binds nothing.
   */
  function WhereScalar(q: QueryState, column: string, op: string, v: Scalar, isOperator: string -> bool)
    : (r: Result<QueryState, Error>)
    ensures r.Err? <==> v == SNull && isOperator(op) && !NullOperator(op)
    ensures r.Err? ==> r.error == IllegalOperatorAndValue
    ensures !isOperator(op) ==> r == Ok(AddWhere(q, Basic(column, "=", SStr(op), "and")))
    ensures isOperator(op) && v != SNull ==> r == Ok(AddWhere(q, Basic(column, op, v, "and")))
    ensures isOperator(op) && v == SNull && NullOperator(op) ==>
      r == Ok(AddWhere(q, NullCheck(column, "and", op != "="))) && r.value.whereBindings == q.whereBindings
  {
    if v == SNull && isOperator(op) && !NullOperator(op) then Err(IllegalOperatorAndValue)
    else if !isOperator(op) then Ok(AddWhere(q, Basic(column, "=", SStr(op), "and")))
    else if v == SNull then Ok(AddWhere(q, NullCheck(column, "and", op != "=")))
    else Ok(AddWhere(q, Basic(column, op, v, "and")))
  }

  /** `$q->wheres = []` followed by `$q->setBindings([], 'where')`. */
  function ClearWheres(q: QueryState): (r: QueryState)
    ensures r.wheres == [] && r.whereBindings == []
    ensures r == q.(wheres := [], whereBindings := [])
  {
    q.(wheres := [], whereBindings := [])
  }

  function OrderBy(q: QueryState, column: string, direction: string): QueryState
  {
    q.(orders := q.orders + [Order(column, direction)])
  }

  /** `limit`/`take`: a negative limit is ignored. */
  function Limit(q: QueryState, n: int): QueryState
  {
    if n >= 0 then q.(limit := Some(n)) else q
  }

  /** `offset`/`skip`: clamped at zero. */
  function Offset(q: QueryState, n: int): QueryState
  {
    q.(offset := Some(if n < 0 then 0 else n))
  }

  function ForPage(q: QueryState, page: int, perPage: int): QueryState
  {
    Limit(Offset(q, (page - 1) * perPage), perPage)
  }

  /** `select($columns)` replaces the column list and its bindings. */
  function Select(q: QueryState, columns: seq<string>): QueryState
  {
    q.(columns := columns)
  }

  function GroupBy(q: QueryState, column: string): QueryState
  {
    q.(groups := q.groups + [column])
  }

  function AddJoin(q: QueryState, j: JoinClause): QueryState
  {
    q.(joins := q.joins + [j])
  }

  /** `getBindings()`: every binding, the where bindings included. */
  function AllBindings(q: QueryState): seq<Scalar>
  {
    q.otherBindings + q.whereBindings
  }

  // ---------------------------------------------------------------------
  // SQL text. Bound values never reach the SQL: the grammar writes one
  // placeholder per binding. The compiled text is therefore a function of
  // the query with its values erased.
  // ---------------------------------------------------------------------

  function EraseValues(vs: seq<Scalar>): (r: seq<Scalar>)
    ensures |r| == |vs|
  {
    seq(|vs|, _ => SNull)
  }

  function EraseWhere(w: Where): Where
    decreases w
  {
    match w
    case Basic(c, o, _, b) => Basic(c, o, SNull, b)
    case In(c, vs, b, n) => In(c, EraseValues(vs), b, n)
    case NullCheck(c, b, n) => NullCheck(c, b, n)
    case Nested(ws, b) => Nested(seq(|ws|, i requires 0 <= i < |ws| => EraseWhere(ws[i])), b)
  }

  function EraseWheres(ws: seq<Where>): (r: seq<Where>)
    ensures |r| == |ws|
    ensures forall i :: 0 <= i < |ws| ==> r[i] == EraseWhere(ws[i])
  {
    seq(|ws|, i requires 0 <= i < |ws| => EraseWhere(ws[i]))
  }

  /** The query with every bound value replaced by a placeholder. */
  function Skeleton(q: QueryState): QueryState
  {
    q.(wheres := EraseWheres(q.wheres), whereBindings := [], otherBindings := [])
  }

  /**
   * Comparing with null is not comparing with a value: `where(c, op, null)`
   * leaves a different query to compile than `where(c, op, v)` for any
   * non-null `v`, and binds nothing where the other binds `v`.
   */
  lemma NullComparisonChangesSql(q: QueryState, column: string, op: string, v: Scalar, isOperator: string -> bool)
    requires isOperator(op) && NullOperator(op) && v != SNull
    ensures WhereScalar(q, column, op, SNull, isOperator).Ok? && WhereScalar(q, column, op, v, isOperator).Ok?
    ensures Skeleton(WhereScalar(q, column, op, SNull, isOperator).value)
         != Skeleton(WhereScalar(q, column, op, v, isOperator).value)
    ensures WhereScalar(q, column, op, v, isOperator).value.whereBindings
         == WhereScalar(q, column, op, SNull, isOperator).value.whereBindings + [v]
  {
    var qn := WhereScalar(q, column, op, SNull, isOperator).value;
    var qv := WhereScalar(q, column, op, v, isOperator).value;
    assert EraseWheres(qn.wheres)[|q.wheres|] != EraseWheres(qv.wheres)[|q.wheres|];
  }

  // ---------------------------------------------------------------------
  // Foreign functions. No property of them is relied on (md5 may collide).
  // ---------------------------------------------------------------------

  datatype Externals = Externals(
    md5: string -> string,
    jsonEncode: seq<Scalar> -> string,
    /** The grammar: SQL text of a query whose values are placeholders. */
    grammar: QueryState -> string,
    /** Runs a getter (get, first, paginate, max, ...) on the database. */
    execute: (QueryState, string, seq<Scalar>) -> Value,
    /** Applies a forwarded builder method (select, limit, whereNull, ...). */
    forward: (QueryState, string, seq<Scalar>) -> QueryState,
    /** `(new $class)->getTable()` */
    tableOf: string -> string,
    /** `(new $class)->getKeyName()` */
    keyNameOf: string -> string,
    /** `Schema::getColumnListing($table)` */
    columnListing: string -> seq<string>,
    /** `in_array(SoftDeletes::class, class_uses($class))` */
    softDeletes: string -> bool,
    /** `class_exists($name)` */
    classExists: string -> bool,
    /** The builder or its grammar knows the operator (`invalidOperator` is false). */
    isOperator: string -> bool)

  /** `$query->toSql()` */
  function ToSql(ext: Externals, q: QueryState): string
  {
    ext.grammar(Skeleton(q))
  }

  /** A mutable builder object: builder calls change it in place and return it. */
  class QueryBuilder {
    var state: QueryState

    /** `clone $query` and `new Builder` alike: a new object with the given state. */
    constructor (s: QueryState)
      ensures state == s
    {
      state := s;
    }
  }
}

/**
 * The key filters both repositories build. A single value becomes one
 * `where(column, operator, value)`, which turns a null value into a null
 * test; a list accepts only `=` and `!=`.
 *
 *  - Eloquent (`filterByKey`): the list becomes one `whereIn`, negated for `!=`.
 *  - Query (`applyCommonFilter`): the list becomes a nested group. The first
 *    element that loosely equals null is taken out and replaced by an
 *    `orWhereNull`; the rest go to `orWhereIn`. Laravel's `orWhereIn` has no
 *    `not` parameter, so the `!=` flag the code passes is dropped and the
 *    group is never negated.
 */
module Filters {
  import opened Php
  import opened Laravel
  import opened Exceptions

  /** The filter value: a scalar, or an array / Arrayable of values. */
  datatype FilterValue = One(v: Scalar) | Many(vs: seq<Scalar>)

  /** `in_array($operator, ['=', '!='])` */
  predicate ListOperator(op: string)
  {
    op == "=" || op == "!="
  }

  /** Eloquent `filterByKey($value, $operator)` on the builder state `q`. */
  function EloquentKeyFilter(q: QueryState, keyName: string, value: FilterValue, op: string, isOperator: string -> bool)
    : (r: Result<QueryState, Error>)
    ensures value.One? ==> r == WhereScalar(q, keyName, op, value.v, isOperator)
    ensures value.Many? ==> (r.Err? <==> !ListOperator(op))
    ensures value.Many? && r.Err? ==> r.error == InvalidOperator(op)
    ensures value.Many? && r.Ok? ==> r.value == AddWhere(q, In(keyName, value.vs, "and", op == "!="))
  {
    match value
    case One(v) => WhereScalar(q, keyName, op, v, isOperator)
    case Many(vs) =>
      if !ListOperator(op) then Err(InvalidOperator(op))
      else Ok(AddWhere(q, In(keyName, vs, "and", op == "!=")))
  }

  /** `array_search(null, $values)`: the first index whose value loosely equals null. */
  function SearchNull(vs: seq<Scalar>): (r: Option<nat>)
    ensures r.Some? ==> r.value < |vs| && LooselyNull(vs[r.value]) &&
                        forall j :: 0 <= j < r.value ==> !LooselyNull(vs[j])
    ensures r.None? ==> forall j :: 0 <= j < |vs| ==> !LooselyNull(vs[j])
  {
    if |vs| == 0 then None
    else if LooselyNull(vs[0]) then Some(0)
    else match SearchNull(vs[1..])
      case None => None
      case Some(k) => Some(k + 1)
  }

  /** `unset($values[$k])`, renumbered as the where bindings see it. */
  function RemoveAt(vs: seq<Scalar>, k: nat): (r: seq<Scalar>)
    requires k < |vs|
    ensures |r| == |vs| - 1
  {
    vs[..k] + vs[k + 1..]
  }

  /**
   * The closure `applyCommonFilter` passes to `where`, applied to a fresh
   * nested query: its where entries, the `!=` flag as the IN's `not`
   * when `passNot` holds, or dropped as `orWhereIn` drops it.
   */
  function GroupWheres(column: string, vs: seq<Scalar>, op: string, passNot: bool): (ws: seq<Where>)
    ensures |ws| >= 1 && ws[|ws| - 1].In?
  {
    match SearchNull(vs)
    case Some(k) => [NullCheck(column, "or", false), In(column, RemoveAt(vs, k), "or", passNot && op == "!=")]
    case None => [In(column, vs, "or", passNot && op == "!=")]
  }

  /** Query `applyCommonFilter($column, $value, $operator)` as the source writes it. */
  function CommonFilter(q: QueryState, column: string, value: FilterValue, op: string, isOperator: string -> bool)
    : (r: Result<QueryState, Error>)
    ensures value.One? ==> r == WhereScalar(q, column, op, value.v, isOperator)
    ensures value.Many? ==> (r.Err? <==> !ListOperator(op))
    ensures value.Many? && r.Err? ==> r.error == InvalidOperator(op)
    ensures value.Many? && r.Ok? ==> r.value == AddWhere(q, Nested(GroupWheres(column, value.vs, op, false), "and"))
  {
    match value
    case One(v) => WhereScalar(q, column, op, v, isOperator)
    case Many(vs) =>
      if !ListOperator(op) then Err(InvalidOperator(op))
      // a nested where is only added when the closure added a where; it always adds the IN
      else Ok(AddNestedWhere(q, GroupWheres(column, vs, op, false), "and"))
  }

  /** `applyCommonFilter` with the `!=` flag reaching the IN (`whereIn($column, $values, 'or', $not)`). */
  function CommonFilterNegating(q: QueryState, column: string, value: FilterValue, op: string, isOperator: string -> bool)
    : (r: Result<QueryState, Error>)
    ensures value.One? ==> r == WhereScalar(q, column, op, value.v, isOperator)
    ensures value.Many? ==> (r.Err? <==> !ListOperator(op))
    ensures value.Many? && r.Ok? ==> r.value == AddWhere(q, Nested(GroupWheres(column, value.vs, op, true), "and"))
  {
    match value
    case One(v) => WhereScalar(q, column, op, v, isOperator)
    case Many(vs) =>
      if !ListOperator(op) then Err(InvalidOperator(op))
      else Ok(AddNestedWhere(q, GroupWheres(column, vs, op, true), "and"))
  }

  /**
   * The group binds every value except the first loosely-null one, in
   * order, and tests null exactly when there was such a value.
   */
  lemma GroupBindings(column: string, vs: seq<Scalar>, op: string, passNot: bool)
    ensures WhereListBindings(GroupWheres(column, vs, op, passNot)) ==
      (match SearchNull(vs) case Some(k) => RemoveAt(vs, k) case None => vs)
    ensures GroupWheres(column, vs, op, passNot)[0].NullCheck? <==> exists j :: 0 <= j < |vs| && LooselyNull(vs[j])
  {
    var ws := GroupWheres(column, vs, op, passNot);
    match SearchNull(vs)
    case Some(k) =>
      assert WhereListBindings(ws) == [] + WhereListBindings(ws[1..]);
      assert ws[1..][1..] == [];
    case None =>
      assert ws[1..] == [];
  }

  /** As written, `filterByKey([1, 2], '!=')` keeps the rows whose key IS 1 or 2. */
  lemma NotInListIsDropped(q: QueryState, column: string, isOperator: string -> bool)
    ensures CommonFilter(q, column, Many([SInt(1), SInt(2)]), "!=", isOperator)
         == Ok(AddWhere(q, Nested([In(column, [SInt(1), SInt(2)], "or", false)], "and")))
  {
    assert SearchNull([SInt(1), SInt(2)]) == None;
  }

  /** With the flag passed on, `!=` on a list negates the IN, as Eloquent's filterByKey does. */
  lemma NegatingFilterNegates(q: QueryState, column: string, vs: seq<Scalar>, op: string, isOperator: string -> bool)
    requires ListOperator(op)
    ensures CommonFilterNegating(q, column, Many(vs), op, isOperator).Ok?
    ensures var ws := CommonFilterNegating(q, column, Many(vs), op, isOperator).value.wheres;
      ws[|ws| - 1].Nested? && (var g := ws[|ws| - 1].wheres; g[|g| - 1].not <==> op == "!=")
  {
  }

  /**
   * Of the ids a cached "pks:" list decodes to, an empty string (what a
   * missing key is written as) is the one value taken out and checked with
   * `orWhereNull`.
   */
  lemma EmptyIdBecomesNullTest(column: string, before: seq<string>, after: seq<string>)
    requires forall i :: 0 <= i < |before| ==> before[i] != ""
    ensures var vs := seq(|before|, i requires 0 <= i < |before| => SStr(before[i])) + [SStr("")] +
                      seq(|after|, i requires 0 <= i < |after| => SStr(after[i]));
      SearchNull(vs) == Some(|before|)
  {
    var vs := seq(|before|, i requires 0 <= i < |before| => SStr(before[i])) + [SStr("")] +
              seq(|after|, i requires 0 <= i < |after| => SStr(after[i]));
    SearchNullFirst(vs, |before|);
  }

  lemma {:induction false} SearchNullFirst(vs: seq<Scalar>, k: nat)
    requires k < |vs| && LooselyNull(vs[k])
    requires forall j :: 0 <= j < k ==> !LooselyNull(vs[j])
    ensures SearchNull(vs) == Some(k)
    decreases k
  {
    if k > 0 {
      SearchNullFirst(vs[1..], k - 1);
    }
  }
}

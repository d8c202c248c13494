/**
 * The naming bookkeeping of the Query repository: model aliases, table
 * names (memoised), qualified columns, the with / withFirst relation
 * dictionaries, join keys, and the "t.c as t_c" column prefixes that a
 * select over several tables uses and hydration strips again.
 */
module Naming {
  import opened Php

  // ---------------------------------------------------------------------
  // Tables and columns
  // ---------------------------------------------------------------------

  /**
   * The table name of a model or alias, before memoising: the aliased
   * model's table followed by " as <alias>", or the model's own table.
   */
  function TableName(aliases: Dict<string>, tableOf: string -> string, model: string): (t: string)
    ensures model in Keys(aliases) && Get(aliases, model).value != model ==>
      t == tableOf(Get(aliases, model).value) + " as " + model
    ensures model !in Keys(aliases) ==> t == tableOf(model)
  {
    var target := match Get(aliases, model) case Some(m) => m case None => model;
    if target != model then tableOf(target) + " as " + model else tableOf(target)
  }

  /** `table($model)`: the memoised name and the memo after the call. */
  function TableMemo(tables: Dict<string>, aliases: Dict<string>, tableOf: string -> string, model: string): (r: (string, Dict<string>))
    ensures model in Keys(tables) ==> r == (Get(tables, model).value, tables)
    ensures model !in Keys(tables) ==> r.0 == TableName(aliases, tableOf, model)
    ensures Keys(r.1) == Keys(tables) + {model}
    ensures Get(r.1, model) == Some(r.0)
    ensures forall m :: m != model ==> Get(r.1, m) == Get(tables, m)
  {
    match Get(tables, model)
    case Some(t) => (t, tables)
    case None =>
      var t := TableName(aliases, tableOf, model);
      (t, Put(tables, model, t))
  }

  /** Asking twice gives the same name and leaves the memo as the first call left it. */
  lemma TableMemoIdempotent(tables: Dict<string>, aliases: Dict<string>, tableOf: string -> string, model: string)
    ensures var (t, m) := TableMemo(tables, aliases, tableOf, model);
      TableMemo(m, aliases, tableOf, model) == (t, m)
  {
  }

  /**
   * `column($column, $model)`: "alias.col" for a registered alias, else the
   * memoised table of the model (the base model when none is given).
   */
  function Column(tables: Dict<string>, aliases: Dict<string>, tableOf: string -> string, baseModel: string,
                  column: string, model: Option<string>): (r: (string, Dict<string>))
    ensures model.Some? && model.value in Keys(aliases) ==> r == (model.value + "." + column, tables)
    ensures !(model.Some? && model.value in Keys(aliases)) ==>
      var m := if model.Some? then model.value else baseModel;
      r == (TableMemo(tables, aliases, tableOf, m).0 + "." + column, TableMemo(tables, aliases, tableOf, m).1)
  {
    if model.Some? && model.value in Keys(aliases) then (model.value + "." + column, tables)
    else
      var (t, tables') := TableMemo(tables, aliases, tableOf, if model.Some? then model.value else baseModel);
      (t + "." + column, tables')
  }

  /** `addModelAlias($model, $alias)`: the first model registered for an alias stays. */
  function AddAlias(aliases: Dict<string>, model: string, alias: string): (r: Dict<string>)
    ensures Keys(r) == Keys(aliases) + {alias}
    ensures alias in Keys(aliases) ==> r == aliases
    ensures alias !in Keys(aliases) ==> Get(r, alias) == Some(model)
    ensures forall a :: a != alias ==> Get(r, a) == Get(aliases, a)
  {
    if alias in Keys(aliases) then aliases else Put(aliases, alias, model)
  }

  // ---------------------------------------------------------------------
  // with / withFirst
  // ---------------------------------------------------------------------

  predicate Disjoint(withs: Dict<string>, withFirst: Dict<string>)
  {
    Keys(withs) * Keys(withFirst) == {}
  }

  /** `with($key, $relation)`: insert when absent, then drop the key from with_first. */
  function AddWith(withs: Dict<string>, withFirst: Dict<string>, key: string, relation: string): (r: (Dict<string>, Dict<string>))
    ensures key !in Keys(withs) ==> Get(r.0, key) == Some(relation) && Disjoint(r.0, r.1)
    ensures key in Keys(withs) ==> r == (withs, withFirst)
    ensures Disjoint(withs, withFirst) ==> Disjoint(r.0, r.1)
    ensures Keys(r.0) == Keys(withs) + {key}
    ensures key !in Keys(withs) ==> Keys(r.1) == Keys(withFirst) - Keys(r.0)
    ensures forall j :: j != key ==> Get(r.0, j) == Get(withs, j)
    ensures forall j :: j in Keys(r.1) ==> Get(r.1, j) == Get(withFirst, j)
  {
    if key in Keys(withs) then (withs, withFirst)
    else
      var w := Put(withs, key, relation);
      (w, DiffKeys(withFirst, w))
  }

  /** `withFirst($key, $relation)`: insert when absent, keeping only keys not in with. */
  function AddWithFirst(withs: Dict<string>, withFirst: Dict<string>, key: string, relation: string): (r: (Dict<string>, Dict<string>))
    ensures r.0 == withs
    ensures key in Keys(withFirst) ==> r.1 == withFirst
    ensures key !in Keys(withFirst) ==> Disjoint(r.0, r.1)
    ensures key !in Keys(withFirst) ==> (key !in Keys(withs) <==> Get(r.1, key) == Some(relation))
    ensures key !in Keys(withFirst) ==> Keys(r.1) == (Keys(withFirst) + {key}) - Keys(withs)
    ensures forall j :: j != key && j in Keys(r.1) ==> Get(r.1, j) == Get(withFirst, j)
    ensures Disjoint(withs, withFirst) ==> Disjoint(r.0, r.1)
  {
    if key in Keys(withFirst) then (withs, withFirst)
    else (withs, DiffKeys(Put(withFirst, key, relation), withs))
  }

  // ---------------------------------------------------------------------
  // Joins
  // ---------------------------------------------------------------------

  /** "(base model)->related": the key a join is recorded under. */
  function JoinKey(baseModel: Option<string>, defaultBase: string, related: string): (k: string)
    ensures EndsWith(k, "->" + related)
  {
    (if baseModel.Some? then baseModel.value else defaultBase) + "->" + related
  }

  // ---------------------------------------------------------------------
  // Column prefixes
  // ---------------------------------------------------------------------

  function AliasOf(table: string, column: string): string
  {
    table + "_" + column
  }

  /** "t.c as t_c" */
  function PrefixedColumn(table: string, column: string): string
  {
    table + "." + column + " as " + AliasOf(table, column)
  }

  /** The select list for one table's columns, in schema order. */
  function PrefixedColumns(table: string, columns: seq<string>): (r: seq<string>)
    ensures |r| == |columns|
    ensures forall i :: 0 <= i < |columns| ==> r[i] == PrefixedColumn(table, columns[i])
  {
    seq(|columns|, i requires 0 <= i < |columns| => PrefixedColumn(table, columns[i]))
  }

  /**
   * The columns of a result row that belong to a table: those whose name
   * starts with `search` ("t_"), with that prefix stripped once.
   */
  function StripPrefix(row: Attrs, search: string): (r: Attrs)
    ensures |r| <= |row|
  {
    if |row| == 0 then []
    else if StartsWith(row[0].0, search) then
      [(ReplaceFirst(search, "", row[0].0), row[0].1)] + StripPrefix(row[1..], search)
    else StripPrefix(row[1..], search)
  }

  /** A row of the select for table t, with the values the database returned. */
  function SelectedRow(table: string, columns: seq<string>, values: seq<Scalar>): (row: Attrs)
    requires |values| == |columns|
    ensures |row| == |columns|
  {
    seq(|columns|, i requires 0 <= i < |columns| => (AliasOf(table, columns[i]), values[i]))
  }

  /**
   * Round trip: the columns selected as "t.c as t_c" come back, after
   * stripping "t_", as the original column names with their values.
   */
  lemma {:induction false} StripRecoversColumns(table: string, columns: seq<string>, values: seq<Scalar>)
    requires |values| == |columns|
    ensures StripPrefix(SelectedRow(table, columns, values), table + "_")
         == seq(|columns|, i requires 0 <= i < |columns| => (columns[i], values[i]))
    decreases |columns|
  {
    var row := SelectedRow(table, columns, values);
    var search := table + "_";
    if |columns| > 0 {
      assert row[0].0 == search + columns[0];
      assert StartsWith(row[0].0, search) by {
        assert (search + columns[0])[..|search|] == search;
      }
      assert (search + columns[0])[|search|..] == columns[0];
      assert ReplaceFirst(search, "", row[0].0) == columns[0];
      assert row[1..] == SelectedRow(table, columns[1..], values[1..]);
      StripRecoversColumns(table, columns[1..], values[1..]);
    }
  }

  /** Columns of other tables are dropped unless their name starts with the same prefix. */
  lemma {:induction false} StripDropsOtherTables(row: Attrs, search: string)
    requires forall i :: 0 <= i < |row| ==> !StartsWith(row[i].0, search)
    ensures StripPrefix(row, search) == []
    decreases |row|
  {
    if |row| > 0 {
      StripDropsOtherTables(row[1..], search);
    }
  }

  /** `!empty(array_filter($columns))`: some value of the row is truthy. */
  predicate HasTruthyValue(row: Attrs)
  {
    exists i :: 0 <= i < |row| && Truthy(row[i].1)
  }
}

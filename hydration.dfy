/**
 * The Query repository's hydrating getters: the column list selected when
 * relations are fetched in the same query (every table's schema columns as
 * "t.c as t_c", cached in `information_schema`), and the way a result's
 * rows are turned back into models of one table (keep the "t_" columns,
 * strip the prefix, drop rows whose values are all falsy).
 */
module Hydration {
  import opened Php
  import opened Naming

  // ---------------------------------------------------------------------
  // Dictionaries with distinct keys
  // ---------------------------------------------------------------------

  predicate UniqueKeys<V>(d: Dict<V>)
  {
    forall i, j :: 0 <= i < j < |d| ==> d[i].0 != d[j].0
  }

  lemma {:induction false} PutUnique<V>(d: Dict<V>, k: string, v: V)
    requires UniqueKeys(d)
    ensures UniqueKeys(Put(d, k, v))
    decreases |d|
  {
    if |d| > 0 && d[0].0 != k {
      KeysSplit(d);
      assert UniqueKeys(d[1..]);
      PutUnique(d[1..], k, v);
      var t := Put(d[1..], k, v);
      assert d[0].0 !in Keys(t) by {
        forall j | 0 <= j < |d| - 1 ensures d[1..][j].0 != d[0].0 {
          assert d[j + 1].0 != d[0].0;
        }
      }
      assert Put(d, k, v) == [d[0]] + t;
      forall j | 0 <= j < |t| ensures t[j].0 != d[0].0 {
        assert t[j].0 in Keys(t);
      }
    }
  }

  /** With distinct keys in `e`, `array_merge($d, $e)` reads `e`'s value for `e`'s keys and `d`'s for the rest. */
  lemma {:induction false} MergeGet<V>(d: Dict<V>, e: Dict<V>, k: string)
    requires UniqueKeys(e)
    ensures k !in Keys(e) ==> Get(Merge(d, e), k) == Get(d, k)
    ensures k in Keys(e) ==> Get(Merge(d, e), k) == Get(e, k)
    decreases |e|
  {
    if |e| > 0 {
      KeysSplit(e);
      assert UniqueKeys(e[1..]);
      MergeGet(Put(d, e[0].0, e[0].1), e[1..], k);
      if k == e[0].0 {
        assert k !in Keys(e[1..]) by {
          forall j | 0 <= j < |e| - 1 ensures e[1..][j].0 != k {
            assert e[j + 1].0 != e[0].0;
          }
        }
      }
    }
  }

  // ---------------------------------------------------------------------
  // getColumnsFromInformationSchemaToSelect
  // ---------------------------------------------------------------------

  /** Some recorded join ends with "->relation". */
  predicate Joined(joins: seq<string>, relation: string)
  {
    exists i :: 0 <= i < |joins| && EndsWith(joins[i], "->" + relation)
  }

  /** The keys of `array_merge($with, $with_first)` not yet in the schema cache, and joined. */
  function JoinedRelations(relations: seq<string>, joins: seq<string>): (r: seq<string>)
    ensures forall x :: x in r <==> x in relations && Joined(joins, x)
  {
    if |relations| == 0 then []
    else if Joined(joins, relations[0]) then [relations[0]] + JoinedRelations(relations[1..], joins)
    else JoinedRelations(relations[1..], joins)
  }

  /** The key a relation gets: its class's table when it names a class, the relation itself otherwise. */
  function RelationName(relation: string, classExists: string -> bool, tableOf: string -> string): string
  {
    if classExists(relation) then tableOf(relation) else relation
  }

  /** The schema columns of the table of the class behind a relation (through its alias). */
  function RelationColumns(relation: string, aliases: Dict<string>, tableOf: string -> string,
                           columnListing: string -> seq<string>): seq<string>
  {
    columnListing(tableOf(match Get(aliases, relation) case Some(c) => c case None => relation))
  }

  /** `mapWithKeys`: each relation's name to its columns, added to `acc` in order. */
  function RelationTables(relations: seq<string>, aliases: Dict<string>, classExists: string -> bool,
                          tableOf: string -> string, columnListing: string -> seq<string>, acc: Dict<seq<string>>)
    : (r: Dict<seq<string>>)
    requires UniqueKeys(acc)
    ensures UniqueKeys(r)
    decreases |relations|
  {
    if |relations| == 0 then acc
    else
      var name := RelationName(relations[0], classExists, tableOf);
      var cols := RelationColumns(relations[0], aliases, tableOf, columnListing);
      PutUnique(acc, name, cols);
      RelationTables(relations[1..], aliases, classExists, tableOf, columnListing, Put(acc, name, cols))
  }

  /** `mapWithKeys` adds exactly the relations' names to the keys. */
  lemma {:induction false} RelationTablesKeys(relations: seq<string>, aliases: Dict<string>, classExists: string -> bool,
                                              tableOf: string -> string, columnListing: string -> seq<string>,
                                              acc: Dict<seq<string>>)
    requires UniqueKeys(acc)
    ensures Keys(RelationTables(relations, aliases, classExists, tableOf, columnListing, acc))
         == Keys(acc) + set x | x in relations :: RelationName(x, classExists, tableOf)
    decreases |relations|
  {
    if |relations| > 0 {
      var name := RelationName(relations[0], classExists, tableOf);
      var cols := RelationColumns(relations[0], aliases, tableOf, columnListing);
      PutUnique(acc, name, cols);
      RelationTablesKeys(relations[1..], aliases, classExists, tableOf, columnListing, Put(acc, name, cols));
      var all := set x | x in relations :: RelationName(x, classExists, tableOf);
      var tail := set x | x in relations[1..] :: RelationName(x, classExists, tableOf);
      forall n | n in all ensures n in {name} + tail {
        var x :| x in relations && RelationName(x, classExists, tableOf) == n;
        var j :| 0 <= j < |relations| && relations[j] == x;
        if j > 0 {
          assert relations[1..][j - 1] == x;
        }
      }
      forall n | n in tail ensures n in all {
        var x :| x in relations[1..] && RelationName(x, classExists, tableOf) == n;
        var j :| 0 <= j < |relations| - 1 && relations[1..][j] == x;
        assert relations[j + 1] == x;
      }
      assert relations[0] in relations;
    }
  }

  /** A name no relation has reads as it did before `mapWithKeys`. */
  lemma {:induction false} RelationTablesKeep(relations: seq<string>, aliases: Dict<string>, classExists: string -> bool,
                                              tableOf: string -> string, columnListing: string -> seq<string>,
                                              acc: Dict<seq<string>>, k: string)
    requires UniqueKeys(acc)
    requires forall x :: x in relations ==> RelationName(x, classExists, tableOf) != k
    ensures Get(RelationTables(relations, aliases, classExists, tableOf, columnListing, acc), k) == Get(acc, k)
    decreases |relations|
  {
    if |relations| > 0 {
      var name := RelationName(relations[0], classExists, tableOf);
      var cols := RelationColumns(relations[0], aliases, tableOf, columnListing);
      PutUnique(acc, name, cols);
      assert relations[0] in relations;
      RelationTablesKeep(relations[1..], aliases, classExists, tableOf, columnListing, Put(acc, name, cols), k);
    }
  }

  /**
   * A relation's name reads that relation's columns after `mapWithKeys`,
   * unless a later relation has the same name (the later one wins).
   */
  lemma {:induction false} RelationTablesGet(relations: seq<string>, aliases: Dict<string>, classExists: string -> bool,
                                             tableOf: string -> string, columnListing: string -> seq<string>,
                                             acc: Dict<seq<string>>, i: nat)
    requires UniqueKeys(acc)
    requires i < |relations|
    requires forall j :: i < j < |relations| ==>
      RelationName(relations[j], classExists, tableOf) != RelationName(relations[i], classExists, tableOf)
    ensures Get(RelationTables(relations, aliases, classExists, tableOf, columnListing, acc),
                RelationName(relations[i], classExists, tableOf))
         == Some(RelationColumns(relations[i], aliases, tableOf, columnListing))
    decreases |relations|
  {
    var name := RelationName(relations[0], classExists, tableOf);
    var cols := RelationColumns(relations[0], aliases, tableOf, columnListing);
    PutUnique(acc, name, cols);
    var rest := relations[1..];
    if i == 0 {
      forall x | x in rest ensures RelationName(x, classExists, tableOf) != name {
        var j :| 0 <= j < |rest| && rest[j] == x;
        assert relations[j + 1] == x;
      }
      RelationTablesKeep(rest, aliases, classExists, tableOf, columnListing, Put(acc, name, cols), name);
    } else {
      assert rest[i - 1] == relations[i];
      forall j | i - 1 < j < |rest|
        ensures RelationName(rest[j], classExists, tableOf) != RelationName(rest[i - 1], classExists, tableOf)
      {
        assert rest[j] == relations[j + 1];
      }
      RelationTablesGet(rest, aliases, classExists, tableOf, columnListing, Put(acc, name, cols), i - 1);
    }
  }

  /** Every table's columns as "t.c as t_c". */
  function PrefixAll(d: Dict<seq<string>>): (r: Dict<seq<string>>)
    ensures |r| == |d|
    ensures forall i :: 0 <= i < |d| ==> r[i] == (d[i].0, PrefixedColumns(d[i].0, d[i].1))
  {
    if |d| == 0 then [] else [(d[0].0, PrefixedColumns(d[0].0, d[0].1))] + PrefixAll(d[1..])
  }

  lemma {:induction false} PrefixAllGet(d: Dict<seq<string>>, k: string)
    ensures Get(PrefixAll(d), k) == match Get(d, k) case Some(cs) => Some(PrefixedColumns(k, cs)) case None => None
    decreases |d|
  {
    if |d| > 0 {
      KeysSplit(d);
      KeysSplit(PrefixAll(d));
      assert PrefixAll(d)[1..] == PrefixAll(d[1..]);
      PrefixAllGet(d[1..], k);
    }
  }

  /** `information_schema` after `getColumnsFromInformationSchemaToSelect()`. */
  function SchemaAfter(schema: Dict<seq<string>>, baseTable: string, withs: Dict<string>, withFirst: Dict<string>,
                       joins: seq<string>, aliases: Dict<string>, classExists: string -> bool,
                       tableOf: string -> string, columnListing: string -> seq<string>): Dict<seq<string>>
  {
    var pending := JoinedRelations(KeyList(DiffKeys(Merge(withs, withFirst), schema)), joins);
    var tables := RelationTables(pending, aliases, classExists, tableOf, columnListing, []);
    var tables' := if baseTable in Keys(schema) then tables else Put(tables, baseTable, columnListing(baseTable));
    if |tables'| > 0 then Merge(schema, PrefixAll(tables')) else schema
  }

  /** `collect($this->information_schema)->flatten()`: every cached column, table by table. */
  function SelectList(schema: Dict<seq<string>>): seq<string>
  {
    if |schema| == 0 then [] else schema[0].1 + SelectList(schema[1..])
  }

  /**
   * The base table is always selected. When it was not cached yet, its schema
   * columns are cached as "t.c as t_c"; when it was and no joined relation is
   * new, nothing is fetched and the cache stays as it is.
   */
  lemma SchemaSelectsBase(schema: Dict<seq<string>>, baseTable: string, withs: Dict<string>, withFirst: Dict<string>,
                          joins: seq<string>, aliases: Dict<string>, classExists: string -> bool,
                          tableOf: string -> string, columnListing: string -> seq<string>)
    ensures var s := SchemaAfter(schema, baseTable, withs, withFirst, joins, aliases, classExists, tableOf, columnListing);
      baseTable in Keys(s) &&
      (baseTable !in Keys(schema) ==> Get(s, baseTable) == Some(PrefixedColumns(baseTable, columnListing(baseTable))))
    ensures var pending := JoinedRelations(KeyList(DiffKeys(Merge(withs, withFirst), schema)), joins);
      baseTable in Keys(schema) && |pending| == 0 ==>
      SchemaAfter(schema, baseTable, withs, withFirst, joins, aliases, classExists, tableOf, columnListing) == schema
  {
    var pending := JoinedRelations(KeyList(DiffKeys(Merge(withs, withFirst), schema)), joins);
    var tables := RelationTables(pending, aliases, classExists, tableOf, columnListing, []);
    var tables' := if baseTable in Keys(schema) then tables else Put(tables, baseTable, columnListing(baseTable));
    if baseTable !in Keys(schema) {
      PutUnique(tables, baseTable, columnListing(baseTable));
      assert |tables'| > 0 by {
        assert baseTable in Keys(tables');
      }
      var e := PrefixAll(tables');
      assert UniqueKeys(e);
      PrefixAllGet(tables', baseTable);
      assert baseTable in Keys(e) by {
        assert Get(e, baseTable).Some?;
      }
      MergeGet(schema, e, baseTable);
    }
  }

  // ---------------------------------------------------------------------
  // getHydratedModels
  // ---------------------------------------------------------------------

  /** The columns whose name starts with `search`, in order. */
  function Prefixed(row: Attrs, search: string): (r: Attrs)
    ensures forall c :: c in r ==> c in row && StartsWith(c.0, search)
  {
    if |row| == 0 then []
    else if StartsWith(row[0].0, search) then [row[0]] + Prefixed(row[1..], search)
    else Prefixed(row[1..], search)
  }

  lemma {:induction false} PrefixedAppend(row: Attrs, c: (string, Scalar), search: string)
    ensures Prefixed(row + [c], search) == Prefixed(row, search) + (if StartsWith(c.0, search) then [c] else [])
    decreases |row|
  {
    if |row| == 0 {
      assert [c][1..] == [];
    } else {
      assert (row + [c])[1..] == row[1..] + [c];
      PrefixedAppend(row[1..], c, search);
    }
  }

  /** `mapWithKeys`: each name with `search` replaced once. */
  function Unprefixed(row: Attrs, search: string): (r: Attrs)
    ensures |r| == |row|
  {
    seq(|row|, i requires 0 <= i < |row| => (ReplaceFirst(search, "", row[i].0), row[i].1))
  }

  /** Filtering then renaming is the one-pass strip. */
  lemma {:induction false} StripInTwoPhases(row: Attrs, search: string)
    ensures Unprefixed(Prefixed(row, search), search) == StripPrefix(row, search)
    decreases |row|
  {
    if |row| > 0 {
      StripInTwoPhases(row[1..], search);
      if StartsWith(row[0].0, search) {
        var p := Prefixed(row[1..], search);
        assert Unprefixed([row[0]] + p, search) == [(ReplaceFirst(search, "", row[0].0), row[0].1)] + Unprefixed(p, search);
      }
    }
  }

  /**
   * The `foreach ... unset` over one result row, then the renaming: the
   * columns of the hydrated table, without their prefix.
   */
  method StripRow(row: Attrs, search: string) returns (r: Attrs)
    ensures r == StripPrefix(row, search)
  {
    var kept: Attrs := [];
    var i := 0;
    while i < |row|
      invariant 0 <= i <= |row|
      invariant kept == Prefixed(row[..i], search)
    {
      PrefixedAppend(row[..i], row[i], search);
      assert row[..i + 1] == row[..i] + [row[i]];
      if StartsWith(row[i].0, search) {
        kept := kept + [row[i]];
      }
      i := i + 1;
    }
    assert row[..i] == row;
    r := Unprefixed(kept, search);
    StripInTwoPhases(row, search);
  }

  /** Rows stripped to one table's columns, keeping those with some truthy value. */
  function KeepRows(rows: seq<Attrs>, search: string): (r: seq<Attrs>)
    ensures |r| <= |rows|
    ensures forall i :: 0 <= i < |r| ==> HasTruthyValue(r[i])
  {
    if |rows| == 0 then []
    else
      var stripped := StripPrefix(rows[0], search);
      if HasTruthyValue(stripped) then [stripped] + KeepRows(rows[1..], search)
      else KeepRows(rows[1..], search)
  }

  /** The rows a getter result carries: a collection's or paginator's items, a single row's attributes. */
  function RowsOf(result: Value): seq<Attrs>
  {
    match result
    case Collection(kind, items) => if kind == LazyCollection then [[]] else items
    case Row(attrs) => [attrs]
    case _ => [[]]
  }

  /** The rows `getHydratedModels` hands to `Model::hydrate`. */
  function HydratedRows(result: Value, search: string, isSelectColumnsModel: bool): seq<Attrs>
  {
    if isSelectColumnsModel then RowsOf(result) else KeepRows(RowsOf(result), search)
  }

  /**
   * `processResultToHydrate` without relations: the hydrated rows become
   * models; a paginator keeps being a paginator, a collection becomes an
   * Eloquent collection, anything else its first model or null.
   */
  function Package(result: Value, rows: seq<Attrs>): (r: Value)
    ensures result.Collection? && result.kind == Paginator ==> r == Collection(Paginator, rows)
    ensures result.Collection? && result.kind != Paginator && result.kind != LazyCollection ==> r == Collection(EloquentCollection, rows)
    ensures !(result.Collection? && result.kind != LazyCollection) ==> r == if |rows| > 0 then Model(rows[0]) else Null
  {
    match result
    case Collection(kind, _) =>
      if kind == Paginator then Collection(Paginator, rows)
      else if kind != LazyCollection then Collection(EloquentCollection, rows)
      else if |rows| > 0 then Model(rows[0]) else Null
    case _ => if |rows| > 0 then Model(rows[0]) else Null
  }

  function Hydrated(result: Value, search: string, isSelectColumnsModel: bool): Value
  {
    Package(result, HydratedRows(result, search, isSelectColumnsModel))
  }

  lemma {:induction false} KeepRowsAppend(rows: seq<Attrs>, row: Attrs, search: string)
    ensures KeepRows(rows + [row], search) == KeepRows(rows, search) +
      (if HasTruthyValue(StripPrefix(row, search)) then [StripPrefix(row, search)] else [])
    decreases |rows|
  {
    if |rows| == 0 {
      assert [row][1..] == [];
    } else {
      assert (rows + [row])[1..] == rows[1..] + [row];
      KeepRowsAppend(rows[1..], row, search);
    }
  }

  /** `getHydratedModels` over the rows of a result: each row stripped in place, all-falsy rows dropped. */
  method HydrateRows(result: Value, search: string, isSelectColumnsModel: bool) returns (rows: seq<Attrs>)
    ensures rows == HydratedRows(result, search, isSelectColumnsModel)
  {
    var all := RowsOf(result);
    if isSelectColumnsModel {
      return all;
    }
    rows := [];
    var i := 0;
    while i < |all|
      invariant 0 <= i <= |all|
      invariant rows == KeepRows(all[..i], search)
    {
      var stripped := StripRow(all[i], search);
      KeepRowsAppend(all[..i], all[i], search);
      assert all[..i + 1] == all[..i] + [all[i]];
      if HasTruthyValue(stripped) {
        rows := rows + [stripped];
      }
      i := i + 1;
    }
    assert all[..i] == all;
  }

  /**
   * A row fetched with the prefixed select of table t hydrates to the model
   * with t's own column names and values, unless every value is falsy, in
   * which case `first` finds nothing.
   */
  lemma HydratedRowRoundTrip(table: string, columns: seq<string>, values: seq<Scalar>)
    requires |values| == |columns|
    ensures var stripped := seq(|columns|, i requires 0 <= i < |columns| => (columns[i], values[i]));
      Hydrated(Row(SelectedRow(table, columns, values)), table + "_", false)
        == if exists i :: 0 <= i < |values| && Truthy(values[i]) then Model(stripped) else Null
  {
    var stripped := seq(|columns|, i requires 0 <= i < |columns| => (columns[i], values[i]));
    StripRecoversColumns(table, columns, values);
    var rows := KeepRows([SelectedRow(table, columns, values)], table + "_");
    assert [SelectedRow(table, columns, values)][1..] == [];
    if exists i :: 0 <= i < |values| && Truthy(values[i]) {
      var i :| 0 <= i < |values| && Truthy(values[i]);
      assert Truthy(stripped[i].1);
      assert rows == [stripped];
    } else {
      assert !HasTruthyValue(stripped);
      assert rows == [];
    }
  }
}

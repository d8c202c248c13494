/**
 * Cache keys. Both strategies of both flavours format
 *   <prefix>:%s($s):%s_%s
 * with four arguments (method, JSON of the arguments, SQL text, JSON of
 * the bindings) and hash the result with md5. The format has three `%s`
 * directives, so `sprintf` drops the fourth argument: the bindings never
 * reach the key.
 */
module Fingerprint {
  import opened Php
  import opened Laravel

  datatype StrategyKind = ById | ByResult

  function Prefix(k: StrategyKind): string
  {
    match k
    case ById => "id"
    case ByResult => "result"
  }

  function Prepend(s: string, o: Option<string>): Option<string>
  {
    match o
    case None => None
    case Some(t) => Some(s + t)
  }

  /**
   * `sprintf` restricted to the directives `%s` and `%%`. Too few
   * arguments is an error (None); surplus arguments are ignored.
   */
  function Sprintf(format: string, args: seq<string>): Option<string>
    decreases |format|
  {
    if |format| == 0 then Some("")
    else if format[0] == '%' && |format| >= 2 && format[1] == 's' then
      if |args| == 0 then None else Prepend(args[0], Sprintf(format[2..], args[1..]))
    else if format[0] == '%' && |format| >= 2 && format[1] == '%' then
      Prepend("%", Sprintf(format[2..], args))
    else
      Prepend([format[0]], Sprintf(format[1..], args))
  }

  /** Literal text without `%` is copied through. */
  lemma {:induction false} SprintfLiteral(lit: string, rest: string, args: seq<string>)
    requires '%' !in lit
    ensures Sprintf(lit + rest, args) == Prepend(lit, Sprintf(rest, args))
    decreases |lit|
  {
    if |lit| > 0 {
      assert (lit + rest)[0] == lit[0];
      assert (lit + rest)[1..] == lit[1..] + rest;
      assert lit[0] != '%' by { assert lit[0] in lit; }
      SprintfLiteral(lit[1..], rest, args);
      match Sprintf(rest, args)
      case None =>
      case Some(t) => assert [lit[0]] + (lit[1..] + t) == lit + t;
    } else {
      assert lit + rest == rest;
      match Sprintf(rest, args)
      case None =>
      case Some(t) => assert lit + t == t;
    }
  }

  /** With no directive left, the surplus arguments vanish. */
  lemma SprintfEnd(args: seq<string>)
    ensures Sprintf("", args) == Some("")
  {
  }

  /** The key format of a strategy, exactly as the sources write it. */
  function KeyFormat(k: StrategyKind): string
  {
    Prefix(k) + ":%s($s):%s_%s"
  }

  /** What the format turns into for three or more arguments. */
  function PreHash(k: StrategyKind, name: string, argsJson: string, sql: string): string
  {
    Prefix(k) + ":" + name + "($s):" + argsJson + "_" + sql
  }

  /** A `%s` directive takes the next argument. */
  lemma SprintfDirective(rest: string, args: seq<string>)
    requires |args| > 0
    ensures Sprintf("%s" + rest, args) == Prepend(args[0], Sprintf(rest, args[1..]))
  {
    assert ("%s" + rest)[2..] == rest;
  }

  /** The last two directives of the key format take the next two arguments and drop the rest. */
  lemma FormatTail(args: seq<string>)
    requires |args| >= 2
    ensures Sprintf("($s):" + ("%s" + ("_" + ("%s" + ""))), args) == Some("($s):" + (args[0] + ("_" + args[1])))
  {
    var rest := args[1..];
    SprintfDirective("", rest);
    SprintfEnd(rest[1..]);
    assert rest[0] + "" == rest[0];
    SprintfLiteral("_", "%s" + "", rest);
    SprintfDirective("_" + ("%s" + ""), args);
    SprintfLiteral("($s):", "%s" + ("_" + ("%s" + "")), args);
  }

  /** Formatting drops every argument after the third. */
  lemma FormatDropsFourth(k: StrategyKind, a: string, b: string, c: string, extra: seq<string>)
    ensures Sprintf(KeyFormat(k), [a, b, c] + extra) == Some(PreHash(k, a, b, c))
  {
    var args := [a, b, c] + extra;
    var tail1 := "($s):" + ("%s" + ("_" + ("%s" + "")));
    var tail0 := "%s" + tail1;
    assert KeyFormat(k) == (Prefix(k) + ":") + tail0;
    FormatTail(args[1..]);
    SprintfDirective(tail1, args);
    SprintfLiteral(Prefix(k) + ":", tail0, args);
    assert PreHash(k, a, b, c) == (Prefix(k) + ":") + (a + ("($s):" + (b + ("_" + c))));
  }

  /**
   * `getCacheKey($method, $args)`: md5 of the formatted key built from the
   * method, the JSON of the arguments, the SQL text and the JSON of the
   * bindings.
   */
  function CacheKey(ext: Externals, k: StrategyKind, name: string, args: seq<Scalar>, q: QueryState): (key: string)
    ensures key == ext.md5(PreHash(k, name, ext.jsonEncode(args), ToSql(ext, q)))
  {
    var argsJson, sql, bindingsJson := ext.jsonEncode(args), ToSql(ext, q), ext.jsonEncode(AllBindings(q));
    FormatDropsFourth(k, name, argsJson, sql, [bindingsJson]);
    ext.md5(Sprintf(KeyFormat(k), [name, argsJson, sql] + [bindingsJson]).value)
  }

  /** Queries that compile to the same SQL share a key, whatever their bindings. */
  lemma KeyIgnoresBindings(ext: Externals, k: StrategyKind, name: string, args: seq<Scalar>, q1: QueryState, q2: QueryState)
    requires Skeleton(q1) == Skeleton(q2)
    ensures CacheKey(ext, k, name, args, q1) == CacheKey(ext, k, name, args, q2)
  {
  }

  /**
   * Two queries that differ only in the non-null value one where compares
   * against get the same key: `where(id, =, 1)` and `where(id, =, 2)`
   * collide. (A null value is a null test instead, with other SQL.)
   */
  lemma {:induction false} BoundValueCollision(ext: Externals, k: StrategyKind, name: string, args: seq<Scalar>,
                                               q: QueryState, column: string, op: string, v1: Scalar, v2: Scalar)
    requires ext.isOperator(op) && v1 != SNull && v2 != SNull
    ensures WhereScalar(q, column, op, v1, ext.isOperator).Ok? && WhereScalar(q, column, op, v2, ext.isOperator).Ok?
    ensures v1 != v2 ==>
      AllBindings(WhereScalar(q, column, op, v1, ext.isOperator).value)
        != AllBindings(WhereScalar(q, column, op, v2, ext.isOperator).value)
    ensures CacheKey(ext, k, name, args, WhereScalar(q, column, op, v1, ext.isOperator).value)
         == CacheKey(ext, k, name, args, WhereScalar(q, column, op, v2, ext.isOperator).value)
  {
    var q1 := WhereScalar(q, column, op, v1, ext.isOperator).value;
    var q2 := WhereScalar(q, column, op, v2, ext.isOperator).value;
    if v1 != v2 {
      var n := |q1.otherBindings + q1.whereBindings|;
      assert AllBindings(q1)[n - 1] == v1;
      assert AllBindings(q2)[n - 1] == v2;
    }
    assert EraseWheres(q1.wheres) == EraseWheres(q2.wheres);
    assert Skeleton(q1) == Skeleton(q2);
  }

  /** The pre-hash strings of the two strategies differ in the prefix only. */
  lemma PreHashPrefixes(name: string, argsJson: string, sql: string)
    ensures PreHash(ById, name, argsJson, sql) == "id" + PreHash(ById, name, argsJson, sql)[2..]
    ensures PreHash(ByResult, name, argsJson, sql) == "result" + PreHash(ById, name, argsJson, sql)[2..]
  {
  }
}

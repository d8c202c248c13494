/**
 * What the chunking loops of both repositories see and do, as functions of
 * the rows the database holds for the repository's query.
 *
 *  - `chunk` walks pages 1, 2, ... of `forPage($page, $count)` over the
 *    query ordered by key; it stops at the first empty or short page and as
 *    soon as the callback returns false.
 *  - `chunkById` repeatedly takes `$count` rows with a key above the last
 *    key seen (starting from 0), ordered by key.
 *  - `doWhile` re-runs one query limited to `$count` rows, expecting the
 *    callback to change what it returns.
 */
module Chunking {
  import opened Php

  // ---------------------------------------------------------------------
  // Paging, as the builder's forPage / take produce it
  // ---------------------------------------------------------------------

  /** `take($count)`: a negative count is ignored. */
  function Take<T>(rows: seq<T>, count: int): (r: seq<T>)
    ensures 0 <= count <= |rows| ==> r == rows[..count]
    ensures count < 0 || count > |rows| ==> r == rows
  {
    if 0 <= count <= |rows| then rows[..count] else rows
  }

  /** `forPage($page, $count)`: skip max(0, (page - 1) * count) rows, then take count. */
  function PageOf<T>(rows: seq<T>, page: int, count: int): seq<T>
  {
    var skip := if (page - 1) * count < 0 then 0 else (page - 1) * count;
    Take(if skip >= |rows| then [] else rows[skip..], count)
  }

  function Flatten<T>(pages: seq<seq<T>>): seq<T>
  {
    if |pages| == 0 then [] else pages[0] + Flatten(pages[1..])
  }

  lemma FlattenCons<T>(page: seq<T>, pages: seq<seq<T>>)
    ensures Flatten([page] + pages) == page + Flatten(pages)
  {
    assert ([page] + pages)[1..] == pages;
  }

  lemma FlattenAppend<T>(a: seq<seq<T>>, b: seq<seq<T>>)
    ensures Flatten(a + b) == Flatten(a) + Flatten(b)
    decreases |a|
  {
    if |a| == 0 {
      assert a + b == b;
    } else {
      assert (a + b)[1..] == a[1..] + b;
      FlattenAppend(a[1..], b);
    }
  }

  /** A callback returned exactly `false`. */
  predicate Stops(v: Value)
  {
    v == Bool(false)
  }

  /** The callback calls a loop made (pages, and the page numbers for `chunk`) and its result. */
  datatype Trace = Trace(pages: seq<seq<Attrs>>, numbers: seq<int>, result: bool)

  function Cons(page: seq<Attrs>, number: int, t: Trace): Trace
  {
    Trace([page] + t.pages, [number] + t.numbers, t.result)
  }

  // ---------------------------------------------------------------------
  // chunk
  // ---------------------------------------------------------------------

  /** The loop of `chunk` from page `page` on. */
  function ChunkFrom(rows: seq<Attrs>, count: int, callback: (seq<Attrs>, int) -> Value, page: int): Trace
    requires page >= 1
    requires count > 0 ==> (page - 1) * count <= |rows|
    decreases if count > 0 then |rows| - (page - 1) * count else 0
  {
    var results := PageOf(rows, page, count);
    if |results| == 0 then Trace([], [], true)
    else if Stops(callback(results, page)) then Trace([results], [page], false)
    else if |results| == count then
      assert (page - 1) * count + count <= |rows|;
      Cons(results, page, ChunkFrom(rows, count, callback, page + 1))
    else Trace([results], [page], true)
  }

  function Chunk(rows: seq<Attrs>, count: int, callback: (seq<Attrs>, int) -> Value): Trace
  {
    ChunkFrom(rows, count, callback, 1)
  }

  lemma NextSkip(page: int, count: int)
    ensures page * count == (page - 1) * count + count
  {
  }

  /** The callback sees consecutive page numbers from `page` on, and never an empty page. */
  lemma {:induction false} ChunkPagesNonEmpty(rows: seq<Attrs>, count: int, callback: (seq<Attrs>, int) -> Value, page: int)
    requires page >= 1 && count > 0 && (page - 1) * count <= |rows|
    ensures var t := ChunkFrom(rows, count, callback, page);
      |t.pages| == |t.numbers| &&
      forall i :: 0 <= i < |t.pages| ==> |t.pages[i]| > 0 && t.numbers[i] == page + i
    decreases |rows| - (page - 1) * count
  {
    var results := PageOf(rows, page, count);
    if |results| > 0 && !Stops(callback(results, page)) && |results| == count {
      NextSkip(page, count);
      ChunkPagesNonEmpty(rows, count, callback, page + 1);
    }
  }

  /**
   * Every page but the last is full and was accepted by the callback; the
   * result is false exactly when the callback rejected the last page.
   */
  lemma {:induction false} ChunkStopsOnlyAtEnd(rows: seq<Attrs>, count: int, callback: (seq<Attrs>, int) -> Value, page: int)
    requires page >= 1 && count > 0 && (page - 1) * count <= |rows|
    ensures var t := ChunkFrom(rows, count, callback, page);
      |t.pages| == |t.numbers| &&
      (forall i :: 0 <= i < |t.pages| - 1 ==> |t.pages[i]| == count && !Stops(callback(t.pages[i], t.numbers[i]))) &&
      (!t.result <==> |t.pages| > 0 && Stops(callback(t.pages[|t.pages| - 1], t.numbers[|t.pages| - 1])))
    decreases |rows| - (page - 1) * count
  {
    var results := PageOf(rows, page, count);
    if |results| > 0 && !Stops(callback(results, page)) && |results| == count {
      NextSkip(page, count);
      ChunkStopsOnlyAtEnd(rows, count, callback, page + 1);
    }
  }

  /** A run that is not stopped reads the rows from its first page on, each once and in order. */
  lemma {:induction false} ChunkReadsRest(rows: seq<Attrs>, count: int, callback: (seq<Attrs>, int) -> Value, page: int)
    requires page >= 1 && count > 0 && (page - 1) * count <= |rows|
    ensures var t := ChunkFrom(rows, count, callback, page);
      t.result ==> Flatten(t.pages) == rows[(page - 1) * count..]
    decreases |rows| - (page - 1) * count
  {
    var skip := (page - 1) * count;
    var results := PageOf(rows, page, count);
    var t := ChunkFrom(rows, count, callback, page);
    if |results| == 0 {
      assert skip == |rows|;
    } else if Stops(callback(results, page)) {
    } else if |results| == count {
      NextSkip(page, count);
      ChunkReadsRest(rows, count, callback, page + 1);
      var u := ChunkFrom(rows, count, callback, page + 1);
      assert t.pages[1..] == u.pages;
      assert rows[skip..] == results + rows[skip + count..];
    } else {
      assert results == rows[skip..];
      assert Flatten(t.pages) == results + Flatten(t.pages[1..]);
    }
  }

  /** With a positive count and a callback that never stops, the pages cover every row once, in order. */
  lemma ChunkCoversRows(rows: seq<Attrs>, count: int, callback: (seq<Attrs>, int) -> Value)
    requires count > 0
    requires forall p, n :: !Stops(callback(p, n))
    ensures Chunk(rows, count, callback).result
    ensures Flatten(Chunk(rows, count, callback).pages) == rows
  {
    ChunkReadsRest(rows, count, callback, 1);
    ChunkStopsOnlyAtEnd(rows, count, callback, 1);
    var t := ChunkFrom(rows, count, callback, 1);
    if |t.pages| > 0 {
      var last := |t.pages| - 1;
      var pg, nm := t.pages[last], t.numbers[last];
      assert !Stops(callback(pg, nm));
    }
    assert rows[0..] == rows;
  }

  /** A count of zero finds an empty first page; a negative count reads every row in one page. */
  lemma ChunkNonPositiveCount(rows: seq<Attrs>, count: int, callback: (seq<Attrs>, int) -> Value)
    requires count <= 0
    ensures count == 0 ==> Chunk(rows, count, callback) == Trace([], [], true)
    ensures count < 0 && |rows| > 0 ==>
      Chunk(rows, count, callback) == Trace([rows], [1], !Stops(callback(rows, 1)))
  {
  }

  // ---------------------------------------------------------------------
  // chunkById
  // ---------------------------------------------------------------------

  function KeyOf(row: Attrs, keyName: string): int
  {
    match Attr(row, keyName)
    case SInt(i) => i
    case _ => 0
  }

  /** The rows are in key order with distinct integer keys (what ordering by the primary key gives). */
  predicate IncreasingKeys(rows: seq<Attrs>, keyName: string)
  {
    (forall i :: 0 <= i < |rows| ==> IntKeyAt(rows, keyName, i)) &&
    (forall i, j :: 0 <= i < j < |rows| ==> KeyAt(rows, keyName, i) < KeyAt(rows, keyName, j))
  }

  /** The row at index `i` has an integer key. */
  predicate IntKeyAt(rows: seq<Attrs>, keyName: string, i: int)
    requires 0 <= i < |rows|
  {
    Attr(rows[i], keyName).SInt?
  }

  /** The key of the row at index `i`. */
  function KeyAt(rows: seq<Attrs>, keyName: string, i: int): int
    requires 0 <= i < |rows|
  {
    KeyOf(rows[i], keyName)
  }

  /** Dropping the first row keeps the keys increasing. */
  lemma IncreasingTail(rows: seq<Attrs>, keyName: string)
    requires IncreasingKeys(rows, keyName) && |rows| > 0
    ensures IncreasingKeys(rows[1..], keyName)
  {
    var tail := rows[1..];
    forall i | 0 <= i < |tail|
      ensures IntKeyAt(tail, keyName, i)
    {
      assert IntKeyAt(rows, keyName, i + 1);
    }
    forall i, j | 0 <= i < j < |tail|
      ensures KeyAt(tail, keyName, i) < KeyAt(tail, keyName, j)
    {
      assert KeyAt(rows, keyName, i + 1) < KeyAt(rows, keyName, j + 1);
    }
  }

  /** `where key > $last_id`, keeping the order. */
  function Above(rows: seq<Attrs>, keyName: string, lastId: int): (r: seq<Attrs>)
    ensures |r| <= |rows|
    ensures forall i :: 0 <= i < |r| ==> KeyOf(r[i], keyName) > lastId
  {
    if |rows| == 0 then []
    else if KeyOf(rows[0], keyName) > lastId then [rows[0]] + Above(rows[1..], keyName, lastId)
    else Above(rows[1..], keyName, lastId)
  }

  /** In key order, the rows above a key are a suffix. */
  lemma {:induction false} AboveIsSuffix(rows: seq<Attrs>, keyName: string, lastId: int)
    requires IncreasingKeys(rows, keyName)
    ensures exists k :: 0 <= k <= |rows| && Above(rows, keyName, lastId) == rows[k..]
    decreases |rows|
  {
    if |rows| == 0 {
      assert Above(rows, keyName, lastId) == rows[0..];
    } else if KeyOf(rows[0], keyName) > lastId {
      AllAbove(rows, keyName, lastId);
      assert Above(rows, keyName, lastId) == rows[0..];
    } else {
      IncreasingTail(rows, keyName);
      AboveIsSuffix(rows[1..], keyName, lastId);
      var k :| 0 <= k <= |rows[1..]| && Above(rows[1..], keyName, lastId) == rows[1..][k..];
      assert rows[1..][k..] == rows[k + 1..];
    }
  }

  /** When the first key is above, every key is. */
  lemma {:induction false} AllAbove(rows: seq<Attrs>, keyName: string, lastId: int)
    requires IncreasingKeys(rows, keyName) && |rows| > 0 && KeyOf(rows[0], keyName) > lastId
    ensures Above(rows, keyName, lastId) == rows
    decreases |rows|
  {
    if |rows| > 1 {
      assert KeyAt(rows, keyName, 0) < KeyAt(rows, keyName, 1);
      IncreasingTail(rows, keyName);
      AllAbove(rows[1..], keyName, lastId);
    }
  }

  /** Moving past the last key of a page drops that page from what is above. */
  lemma AbovePastPage(rows: seq<Attrs>, keyName: string, lastId: int, n: nat)
    requires IncreasingKeys(rows, keyName)
    requires 0 < n <= |Above(rows, keyName, lastId)|
    ensures Above(rows, keyName, KeyOf(Above(rows, keyName, lastId)[n - 1], keyName))
         == Above(rows, keyName, lastId)[n..]
  {
    AboveIsSuffix(rows, keyName, lastId);
    var k :| 0 <= k <= |rows| && Above(rows, keyName, lastId) == rows[k..];
    var next := KeyOf(rows[k + n - 1], keyName);
    AboveSplit(rows, keyName, next, k + n);
  }

  /** With increasing keys, the rows above the key at index m - 1 are exactly rows[m..]. */
  lemma {:induction false} AboveSplit(rows: seq<Attrs>, keyName: string, next: int, m: nat)
    requires IncreasingKeys(rows, keyName) && 0 < m <= |rows| && next == KeyOf(rows[m - 1], keyName)
    ensures Above(rows, keyName, next) == rows[m..]
    decreases |rows|
  {
    if m == 1 {
      if |rows| > 1 {
        assert KeyAt(rows, keyName, 0) < KeyAt(rows, keyName, 1);
        IncreasingTail(rows, keyName);
        AllAbove(rows[1..], keyName, next);
      }
      assert rows[1..] == rows[m..];
    } else {
      assert KeyAt(rows, keyName, 0) < KeyAt(rows, keyName, m - 1);
      IncreasingTail(rows, keyName);
      AboveSplit(rows[1..], keyName, next, m - 1);
      assert rows[1..][m - 1..] == rows[m..];
    }
  }

  /** One round of chunkById's loop as the source writes it. `again` is the while condition. */
  datatype ByIdRound = ByIdRound(results: seq<Attrs>, lastId: int, callbackRuns: bool, again: bool)

  function ByIdStep(rows: seq<Attrs>, keyName: string, count: int, lastId: int): (s: ByIdRound)
  {
    var results := Take(Above(rows, keyName, lastId), count);
    ByIdRound(results,
              if |results| > 0 then KeyOf(results[|results| - 1], keyName) else lastId,
              |results| > 0,
              |results| == count)
  }

  /**
   * With a count of zero the round reads nothing, keeps the last id and
   * asks for another round: the loop as written runs forever.
   */
  lemma ByIdZeroCountNeverStops(rows: seq<Attrs>, keyName: string, lastId: int)
    ensures ByIdStep(rows, keyName, 0, lastId) == ByIdRound([], lastId, false, true)
  {
  }

  /**
   * The pages chunkById's loop hands out when `above` holds the rows still
   * to come (those above the last id), with an empty page ending it as
   * `chunk` does.
   */
  function ByIdPages(above: seq<Attrs>, count: int, callback: seq<Attrs> -> Value): Trace
    decreases |above|
  {
    var results := Take(above, count);
    if |results| == 0 then Trace([], [], true)
    else if Stops(callback(results)) then Trace([results], [0], false)
    else if |results| == count then Cons(results, 0, ByIdPages(above[count..], count, callback))
    else Trace([results], [0], true)
  }

  /** chunkById from last id 0. */
  function ChunkById(rows: seq<Attrs>, keyName: string, count: int, callback: seq<Attrs> -> Value): Trace
  {
    ByIdPages(Above(rows, keyName, 0), count, callback)
  }

  /**
   * The loop both repositories' `chunkById` run: ask for the rows above the
   * last id, hand them to the callback, move the last id to the page's last
   * key; stop on an empty page, a short page or a callback returning false.
   */
  method ChunkByIdLoop(rows: seq<Attrs>, keyName: string, count: int, callback: seq<Attrs> -> Value) returns (r: bool)
    requires IncreasingKeys(rows, keyName)
    ensures r == ChunkById(rows, keyName, count, callback).result
  {
    var lastId := 0;
    while true
      invariant ByIdPages(Above(rows, keyName, lastId), count, callback).result == ChunkById(rows, keyName, count, callback).result
      decreases |Above(rows, keyName, lastId)|
    {
      var above := Above(rows, keyName, lastId);
      var results := Take(above, count);
      if |results| == 0 {
        return true;
      }
      if Stops(callback(results)) {
        return false;
      }
      if |results| != count {
        return true;
      }
      AbovePastPage(rows, keyName, lastId, count);
      assert results == above[..count];
      lastId := KeyOf(results[|results| - 1], keyName);
    }
  }

  /**
   * When the callback never stops, the pages cover exactly the rows still
   * to come, in order.
   */
  lemma {:induction false} ByIdPagesCover(above: seq<Attrs>, count: int, callback: seq<Attrs> -> Value)
    requires count > 0
    ensures var t := ByIdPages(above, count, callback);
      t.result ==> Flatten(t.pages) == above
    decreases |above|
  {
    if count <= |above| && !Stops(callback(above[..count])) {
      var u := ByIdPages(above[count..], count, callback);
      ByIdPagesStep(above, count, callback);
      ByIdPagesCover(above[count..], count, callback);
      FlattenCons(above[..count], u.pages);
      assert above == above[..count] + above[count..];
    } else {
      ByIdPagesLast(above, count, callback);
    }
  }

  /** A full page the callback accepts is followed by the pages of the rows after it. */
  lemma ByIdPagesStep(above: seq<Attrs>, count: int, callback: seq<Attrs> -> Value)
    requires 0 < count <= |above| && !Stops(callback(above[..count]))
    ensures ByIdPages(above, count, callback) == Cons(above[..count], 0, ByIdPages(above[count..], count, callback))
  {
  }

  /** Otherwise the loop hands out at most the remaining rows, in one page. */
  lemma ByIdPagesLast(above: seq<Attrs>, count: int, callback: seq<Attrs> -> Value)
    requires count > 0 && !(count <= |above| && !Stops(callback(above[..count])))
    ensures var t := ByIdPages(above, count, callback);
      t.result ==> Flatten(t.pages) == above
  {
    var t := ByIdPages(above, count, callback);
    if |above| > 0 && count > |above| && !Stops(callback(above)) {
      assert t.pages == [above];
      assert Flatten([above]) == above + Flatten([]);
    }
  }

  /** chunkById never hands the callback an empty page. */
  lemma {:induction false} ByIdPagesNonEmpty(above: seq<Attrs>, count: int, callback: seq<Attrs> -> Value)
    ensures var t := ByIdPages(above, count, callback);
      forall i :: 0 <= i < |t.pages| ==> |t.pages[i]| > 0
    decreases |above|
  {
    if 0 < count <= |above| && !Stops(callback(above[..count])) {
      ByIdPagesStep(above, count, callback);
      ByIdPagesNonEmpty(above[count..], count, callback);
    }
  }

  /**
   * Every page but the last is full and was accepted by the callback; the
   * result is false exactly when the callback rejected the last page.
   */
  lemma {:induction false} ByIdStopsOnlyAtEnd(above: seq<Attrs>, count: int, callback: seq<Attrs> -> Value)
    ensures var t := ByIdPages(above, count, callback);
      (forall i :: 0 <= i < |t.pages| - 1 ==> |t.pages[i]| == count && !Stops(callback(t.pages[i]))) &&
      (!t.result <==> |t.pages| > 0 && Stops(callback(t.pages[|t.pages| - 1])))
    decreases |above|
  {
    if 0 < count <= |above| && !Stops(callback(above[..count])) {
      ByIdPagesStep(above, count, callback);
      ByIdStopsOnlyAtEnd(above[count..], count, callback);
      var u := ByIdPages(above[count..], count, callback);
      if |u.pages| > 0 {
        assert ([above[..count]] + u.pages)[|u.pages|] == u.pages[|u.pages| - 1];
      }
    }
  }

  /** Starting from id 0, a callback that never stops sees every row with a positive key, once and in order. */
  lemma ChunkByIdCoversRows(rows: seq<Attrs>, keyName: string, count: int, callback: seq<Attrs> -> Value)
    requires count > 0
    requires forall p :: !Stops(callback(p))
    ensures ChunkById(rows, keyName, count, callback).result
    ensures Flatten(ChunkById(rows, keyName, count, callback).pages) == Above(rows, keyName, 0)
  {
    ByIdPagesCover(Above(rows, keyName, 0), count, callback);
    ByIdStopsOnlyAtEnd(Above(rows, keyName, 0), count, callback);
    var t := ChunkById(rows, keyName, count, callback);
    if |t.pages| > 0 {
      var pg := t.pages[|t.pages| - 1];
      assert !Stops(callback(pg));
    }
  }

  // ---------------------------------------------------------------------
  // doWhile
  // ---------------------------------------------------------------------

  /**
   * The loop of `doWhile` from round `round` on. `answers[i]` is what the
   * limited query returns in round i; past the end it returns nothing.
   */
  function DoWhileFrom(answers: seq<seq<Attrs>>, count: int, callback: seq<Attrs> -> Value, round: nat): Trace
    decreases |answers| - round
  {
    var results := if round < |answers| then Take(answers[round], count) else [];
    if |results| == 0 then Trace([], [], true)
    else if Stops(callback(results)) then Trace([results], [round], false)
    else if |results| == count then Cons(results, round, DoWhileFrom(answers, count, callback, round + 1))
    else Trace([results], [round], true)
  }

  function DoWhile(answers: seq<seq<Attrs>>, count: int, callback: seq<Attrs> -> Value): Trace
  {
    DoWhileFrom(answers, count, callback, 0)
  }

  /** doWhile hands out non-empty results of at most `count` rows, all full but the last. */
  lemma {:induction false} DoWhileFromFacts(answers: seq<seq<Attrs>>, count: int, callback: seq<Attrs> -> Value, round: nat)
    requires count >= 0
    ensures var t := DoWhileFrom(answers, count, callback, round);
      (forall i :: 0 <= i < |t.pages| ==> 0 < |t.pages[i]| <= count) &&
      (forall i :: 0 <= i < |t.pages| - 1 ==> |t.pages[i]| == count && !Stops(callback(t.pages[i]))) &&
      (!t.result <==> |t.pages| > 0 && Stops(callback(t.pages[|t.pages| - 1])))
    decreases |answers| - round
  {
    var results := if round < |answers| then Take(answers[round], count) else [];
    var t := DoWhileFrom(answers, count, callback, round);
    if |results| > 0 && !Stops(callback(results)) && |results| == count {
      DoWhileFromFacts(answers, count, callback, round + 1);
      var u := DoWhileFrom(answers, count, callback, round + 1);
      assert t.pages == [results] + u.pages;
    }
  }
}

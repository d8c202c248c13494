/**
 * The PHP values the caching layer handles, and the few PHP and Laravel
 * string and array helpers whose exact behaviour the cache relies on:
 * string conversion, implode/explode, str_replace, Str::startsWith,
 * str_replace_first and string-keyed (ordered) arrays.
 */
module Php {

  datatype Option<+T> = None | Some(value: T)

  datatype Result<+T, +E> = Ok(value: T) | Err(error: E)

  /** A PHP scalar: an attribute value, a binding, a getter argument. */
  datatype Scalar = SNull | SBool(b: bool) | SInt(i: int) | SStr(s: string)

  /** PHP truthiness of a scalar (what `?:`, `if ($x)` and array_filter test). */
  predicate Truthy(x: Scalar)
  {
    match x
    case SNull => false
    case SBool(b) => b
    case SInt(i) => i != 0
    case SStr(s) => s != "" && s != "0"
  }

  /**
   * PHP 8's loose comparison `x == null`: null and bool compare as booleans,
   * an int compares as a boolean, a string is compared with "".
   */
  predicate LooselyNull(x: Scalar)
  {
    match x
    case SNull => true
    case SBool(b) => !b
    case SInt(i) => i == 0
    case SStr(s) => s == ""
  }

  /** Loose equality to null and falsiness differ on exactly one value, the string "0". */
  lemma LooselyNullIsFalsyExceptZeroString(x: Scalar)
    ensures LooselyNull(x) ==> !Truthy(x)
    ensures !Truthy(x) && !LooselyNull(x) <==> x == SStr("0")
  {
  }

  function DigitChar(d: nat): (c: char)
    requires d < 10
    ensures '0' <= c <= '9'
  {
    "0123456789"[d]
  }

  /** Decimal digits of a natural number, most significant first. */
  function Digits(n: nat): (s: string)
    ensures |s| > 0
    ensures forall i :: 0 <= i < |s| ==> '0' <= s[i] <= '9'
    decreases n
  {
    if n < 10 then [DigitChar(n)] else Digits(n / 10) + [DigitChar(n % 10)]
  }

  /** PHP's string conversion of an int. */
  function DecimalString(n: int): (s: string)
    ensures |s| > 0
    ensures forall i :: 0 <= i < |s| ==> s[i] == '-' || '0' <= s[i] <= '9'
  {
    if n < 0 then "-" + Digits(-n) else Digits(n)
  }

  /** PHP's string conversion of a scalar, as `.` and implode apply it. */
  function ToPhpString(x: Scalar): string
  {
    match x
    case SNull => ""
    case SBool(b) => if b then "1" else ""
    case SInt(i) => DecimalString(i)
    case SStr(s) => s
  }

  // ---------------------------------------------------------------------
  // Strings
  // ---------------------------------------------------------------------

  /** Str::startsWith with one needle. */
  predicate StartsWith(s: string, prefix: string)
  {
    |prefix| <= |s| && s[..|prefix|] == prefix
  }

  /** Str::endsWith with one needle. */
  predicate EndsWith(s: string, suffix: string)
  {
    |suffix| <= |s| && s[|s| - |suffix|..] == suffix
  }

  /** `pat` occurs in `s` at some position. */
  predicate Occurs(pat: string, s: string)
    decreases |s|
  {
    StartsWith(s, pat) || (|s| > 0 && Occurs(pat, s[1..]))
  }

  /** implode(sep, xs) */
  function Implode(xs: seq<string>, sep: char): (s: string)
  {
    if |xs| == 0 then ""
    else if |xs| == 1 then xs[0]
    else xs[0] + [sep] + Implode(xs[1..], sep)
  }

  /** explode(sep, s) for a one-character delimiter: never empty; "" gives [""]. */
  function Explode(s: string, sep: char): (r: seq<string>)
    ensures |r| >= 1
    ensures sep !in s ==> r == [s]
    ensures forall i :: 0 <= i < |r| ==> sep !in r[i]
  {
    if |s| == 0 then [""]
    else if s[0] == sep then [""] + Explode(s[1..], sep)
    else
      var rest := Explode(s[1..], sep);
      assert [s[0]] + s[1..] == s;
      [[s[0]] + rest[0]] + rest[1..]
  }

  /** str_replace(pat, rep, s): every non-overlapping occurrence, scanning left to right. */
  function ReplaceAll(s: string, pat: string, rep: string): string
    decreases |s|
  {
    if |pat| == 0 || |s| == 0 then s
    else if StartsWith(s, pat) then rep + ReplaceAll(s[|pat|..], pat, rep)
    else [s[0]] + ReplaceAll(s[1..], pat, rep)
  }

  /** Position of the first occurrence of `pat` in `s` (strpos). */
  function IndexOf(s: string, pat: string): (r: Option<nat>)
    ensures r.Some? ==> r.value + |pat| <= |s| && s[r.value..r.value + |pat|] == pat
    ensures StartsWith(s, pat) ==> r == Some(0)
    decreases |s|
  {
    if StartsWith(s, pat) then Some(0)
    else if |s| == 0 then None
    else match IndexOf(s[1..], pat)
      case None => None
      case Some(i) => Some(i + 1)
  }

  /** Laravel's str_replace_first(search, replace, subject). */
  function ReplaceFirst(search: string, replace: string, subject: string): (r: string)
    ensures |search| > 0 && StartsWith(subject, search) ==> r == replace + subject[|search|..]
  {
    if search == "" then subject
    else match IndexOf(subject, search)
      case None => subject
      case Some(i) => subject[..i] + replace + subject[i + |search|..]
  }

  lemma {:induction false} ImplodeExplode(xs: seq<string>, sep: char)
    requires |xs| >= 1
    requires forall i :: 0 <= i < |xs| ==> sep !in xs[i]
    ensures Explode(Implode(xs, sep), sep) == xs
    decreases |xs|
  {
    if |xs| == 1 {
      assert Implode(xs, sep) == xs[0];
    } else {
      ImplodeExplode(xs[1..], sep);
      ExplodeConcat(xs[0], Implode(xs[1..], sep), sep);
      assert Implode(xs, sep) == xs[0] + ([sep] + Implode(xs[1..], sep));
      assert [xs[0]] + xs[1..] == xs;
    }
  }

  /** Exploding `a , b` where `a` holds no delimiter splits off `a` as the first piece. */
  lemma {:induction false} ExplodeConcat(a: string, b: string, sep: char)
    requires sep !in a
    ensures Explode(a + ([sep] + b), sep) == [a] + Explode(b, sep)
    decreases |a|
  {
    if |a| == 0 {
      assert a + ([sep] + b) == [sep] + b;
      assert ([sep] + b)[1..] == b;
    } else {
      ExplodeConcat(a[1..], b, sep);
      assert (a + ([sep] + b))[1..] == a[1..] + ([sep] + b);
      assert [a[0]] + a[1..] == a;
    }
  }

  lemma {:induction false} ReplaceAllNoOccurrence(s: string, pat: string)
    requires !Occurs(pat, s)
    ensures ReplaceAll(s, pat, "") == s
    decreases |s|
  {
    if |pat| > 0 && |s| > 0 {
      ReplaceAllNoOccurrence(s[1..], pat);
      assert [s[0]] + s[1..] == s;
    }
  }

  /** A string lacking the first character of `pat` has no occurrence of `pat`. */
  lemma {:induction false} NoOccurrenceWithoutFirstChar(pat: string, s: string)
    requires |pat| > 0 && pat[0] !in s
    ensures !Occurs(pat, s)
    decreases |s|
  {
    if |pat| <= |s| {
      assert s[0] in s;
      assert s[..|pat|][0] != pat[0];
    }
    if |s| > 0 {
      NoOccurrenceWithoutFirstChar(pat, s[1..]);
    }
  }

  /** A delimiter-free `pat` cannot occur in an implode of pieces that do not contain it. */
  lemma {:induction false} NoOccurrenceInImplode(xs: seq<string>, sep: char, pat: string)
    requires |pat| > 0 && sep !in pat
    requires forall i :: 0 <= i < |xs| ==> !Occurs(pat, xs[i])
    ensures !Occurs(pat, Implode(xs, sep))
    decreases |xs|
  {
    if |xs| == 0 {
      assert !StartsWith("", pat);
    } else if |xs| == 1 {
    } else {
      NoOccurrenceInImplode(xs[1..], sep, pat);
      NoOccurrenceAcross(xs[0], Implode(xs[1..], sep), sep, pat);
      assert Implode(xs, sep) == xs[0] + ([sep] + Implode(xs[1..], sep));
    }
  }

  lemma {:induction false} NoOccurrenceAcross(a: string, b: string, sep: char, pat: string)
    requires |pat| > 0 && sep !in pat
    requires !Occurs(pat, a) && !Occurs(pat, b)
    ensures !Occurs(pat, a + ([sep] + b))
    decreases |a|
  {
    var s := a + ([sep] + b);
    if |pat| <= |a| {
      assert s[..|pat|] == a[..|pat|];
    } else if |pat| <= |s| {
      assert s[..|pat|][|a|] == sep;
      assert pat[|a|] != sep;
    }
    assert !StartsWith(s, pat);
    if |a| == 0 {
      assert s[1..] == b;
    } else {
      NoOccurrenceAcross(a[1..], b, sep, pat);
      assert a == [a[0]] + a[1..];
      assert s == [a[0]] + (a[1..] + ([sep] + b));
    }
  }

  lemma {:induction false} OccursLength(pat: string, s: string)
    requires Occurs(pat, s)
    ensures |pat| <= |s|
    decreases |s|
  {
    if !StartsWith(s, pat) {
      OccursLength(pat, s[1..]);
    }
  }

  lemma {:induction false} ReplaceAllNotLonger(s: string, pat: string)
    ensures |ReplaceAll(s, pat, "")| <= |s|
    decreases |s|
  {
    if |pat| > 0 && |s| > 0 {
      if StartsWith(s, pat) {
        ReplaceAllNotLonger(s[|pat|..], pat);
      } else {
        ReplaceAllNotLonger(s[1..], pat);
      }
    }
  }

  /** Removing an occurrence of a non-empty pattern makes the string shorter. */
  lemma {:induction false} ReplaceAllShorter(s: string, pat: string)
    requires |pat| > 0 && Occurs(pat, s)
    ensures |ReplaceAll(s, pat, "")| < |s|
    decreases |s|
  {
    OccursLength(pat, s);
    if StartsWith(s, pat) {
      ReplaceAllNotLonger(s[|pat|..], pat);
    } else {
      ReplaceAllShorter(s[1..], pat);
    }
  }

  /** implode undoes explode. */
  lemma {:induction false} ExplodeImplode(s: string, sep: char)
    ensures Implode(Explode(s, sep), sep) == s
    decreases |s|
  {
    if |s| > 0 {
      var rest := Explode(s[1..], sep);
      ExplodeImplode(s[1..], sep);
      if s[0] == sep {
        assert Explode(s, sep) == [""] + rest;
        assert ([""] + rest)[1..] == rest;
        assert s == [sep] + s[1..];
      } else {
        var r := Explode(s, sep);
        assert r == [[s[0]] + rest[0]] + rest[1..];
        if |rest| == 1 {
          assert r == [[s[0]] + rest[0]];
        } else {
          assert r[1..] == rest[1..];
          assert Implode(rest, sep) == rest[0] + [sep] + Implode(rest[1..], sep);
        }
        assert s == [s[0]] + s[1..];
      }
    }
  }

  /** Removing a leading `pat` and then all of its occurrences. */
  lemma ReplaceAllPrefix(pat: string, t: string)
    requires |pat| > 0
    ensures ReplaceAll(pat + t, pat, "") == ReplaceAll(t, pat, "")
  {
    assert StartsWith(pat + t, pat);
    assert (pat + t)[|pat|..] == t;
  }

  // ---------------------------------------------------------------------
  // String-keyed PHP arrays (ordered dictionaries)
  // ---------------------------------------------------------------------

  /** A PHP array with string keys, in insertion order. */
  type Dict<V> = seq<(string, V)>

  function Keys<V>(d: Dict<V>): (ks: set<string>)
  {
    set i | 0 <= i < |d| :: d[i].0
  }

  lemma KeysCons<V>(x: (string, V), t: Dict<V>)
    ensures Keys([x] + t) == {x.0} + Keys(t)
  {
    var d := [x] + t;
    forall k | k in Keys(t) ensures k in Keys(d) {
      var i :| 0 <= i < |t| && t[i].0 == k;
      assert d[i + 1].0 == k;
    }
    assert d[0].0 == x.0;
  }

  lemma KeysSplit<V>(d: Dict<V>)
    requires |d| > 0
    ensures Keys(d) == {d[0].0} + Keys(d[1..])
  {
    KeysCons(d[0], d[1..]);
    assert [d[0]] + d[1..] == d;
  }

  /** The keys in order (array_keys). */
  function KeyList<V>(d: Dict<V>): (ks: seq<string>)
    ensures |ks| == |d|
    ensures forall i :: 0 <= i < |d| ==> ks[i] == d[i].0
  {
    if |d| == 0 then [] else [d[0].0] + KeyList(d[1..])
  }

  function Values<V>(d: Dict<V>): (vs: seq<V>)
    ensures |vs| == |d|
    ensures forall i :: 0 <= i < |d| ==> vs[i] == d[i].1
  {
    if |d| == 0 then [] else [d[0].1] + Values(d[1..])
  }

  /** $d[$k], when array_key_exists($k, $d). */
  function Get<V>(d: Dict<V>, k: string): (r: Option<V>)
    ensures r.Some? <==> k in Keys(d)
    ensures r.Some? ==> (k, r.value) in d
  {
    if |d| == 0 then None
    else if d[0].0 == k then Some(d[0].1)
    else
      KeysSplit(d);
      Get(d[1..], k)
  }

  /** $d[$k] = $v: overwrites in place when the key exists, appends otherwise. */
  function Put<V>(d: Dict<V>, k: string, v: V): (r: Dict<V>)
    ensures Keys(r) == Keys(d) + {k}
    ensures Get(r, k) == Some(v)
    ensures forall j :: j != k ==> Get(r, j) == Get(d, j)
  {
    if |d| == 0 then [(k, v)]
    else if d[0].0 == k then
      KeysSplit(d);
      KeysCons((k, v), d[1..]);
      [(k, v)] + d[1..]
    else
      KeysSplit(d);
      var r := [d[0]] + Put(d[1..], k, v);
      KeysCons(d[0], Put(d[1..], k, v));
      r
  }

  /** array_diff_key(d, e): the entries of `d` whose key is not a key of `e`, in order. */
  function DiffKeys<V, W>(d: Dict<V>, e: Dict<W>): (r: Dict<V>)
    ensures Keys(r) == Keys(d) - Keys(e)
    ensures forall j :: j !in Keys(e) ==> Get(r, j) == Get(d, j)
  {
    if |d| == 0 then []
    else
      KeysSplit(d);
      var rest := DiffKeys(d[1..], e);
      if d[0].0 in Keys(e) then rest
      else
        var r := [d[0]] + rest;
        KeysCons(d[0], rest);
        r
  }

  /** array_merge(d, e) for string keys: `e`'s entries overwrite or append, left to right. */
  function Merge<V>(d: Dict<V>, e: Dict<V>): (r: Dict<V>)
    ensures Keys(r) == Keys(d) + Keys(e)
    decreases |e|
  {
    if |e| == 0 then d
    else
      KeysSplit(e);
      Merge(Put(d, e[0].0, e[0].1), e[1..])
  }

  // ---------------------------------------------------------------------
  // Results of queries and getters
  // ---------------------------------------------------------------------

  /** The attributes of a row or a model, by column name. */
  type Attrs = Dict<Scalar>

  /** `$object->{$name}` / object_get: null when the attribute is absent. */
  function Attr(attrs: Attrs, name: string): (v: Scalar)
    ensures name !in Keys(attrs) ==> v == SNull
  {
    match Get(attrs, name)
    case Some(v) => v
    case None => SNull
  }

  /** The collection classes the two cache strategies distinguish. */
  datatype CollectionKind =
    | EloquentCollection   // Illuminate\Database\Eloquent\Collection (a Support Collection)
    | SupportCollection    // Illuminate\Support\Collection, not an Eloquent one
    | LazyCollection       // Illuminate\Support\LazyCollection
    | Paginator            // an Illuminate\Pagination\AbstractPaginator

  /**
   * What a getter can return and what the cache store can hold: PHP null, a
   * scalar, a plain row object (stdClass), a model, a collection or paginator
   * of rows/models, or any other object (`Opaque`, identified by a tag).
   */
  datatype Value =
    | Null
    | Bool(b: bool)
    | Int(i: int)
    | Str(s: string)
    | Row(attrs: Attrs)
    | Model(attrs: Attrs)
    | Collection(kind: CollectionKind, items: seq<Attrs>)
    | Opaque(tag: int)

  /** `$collection->pluck($name)`: one attribute of every item, in order. */
  function Pluck(items: seq<Attrs>, name: string): (vs: seq<Scalar>)
    ensures |vs| == |items|
    ensures forall i :: 0 <= i < |items| ==> vs[i] == Attr(items[i], name)
  {
    if |items| == 0 then [] else [Attr(items[0], name)] + Pluck(items[1..], name)
  }

  /** The string forms of a list of scalars, as implode converts them. */
  function PhpStrings(xs: seq<Scalar>): (ss: seq<string>)
    ensures |ss| == |xs|
    ensures forall i :: 0 <= i < |xs| ==> ss[i] == ToPhpString(xs[i])
  {
    if |xs| == 0 then [] else [ToPhpString(xs[0])] + PhpStrings(xs[1..])
  }

  /** An array of strings (what explode returns) as scalars. */
  function StrScalars(ss: seq<string>): (xs: seq<Scalar>)
    ensures |xs| == |ss|
    ensures forall i :: 0 <= i < |ss| ==> xs[i] == SStr(ss[i])
  {
    seq(|ss|, i requires 0 <= i < |ss| => SStr(ss[i]))
  }
}

/**
 * How the id strategy stores results. A collection or a model is stored as
 * the string "pks:" followed by the comma-joined primary keys, null as the
 * string "null", and anything else as it is. Reading turns the two exact
 * sentinels back into an empty collection and null, and any other "pks:"
 * string into a list of ids for the caller to fetch again.
 */
module IdCodec {
  import opened Php
  import opened Exceptions

  /** What `get` makes of the value it found in the store. */
  datatype Decoded =
    | Miss                        // nothing stored, or a stored null
    | EmptyCollection             // exactly "pks:"
    | NullResult                  // exactly "null"
    | ReplayIds(ids: seq<string>) // "pks:" and more: the ids to fetch
    | Verbatim(v: Value)          // returned as stored

  /** The branches of `get` that inspect the stored value, in source order. */
  function Decode(stored: Value): (d: Decoded)
    ensures d == Miss <==> stored == Null
    ensures d == EmptyCollection <==> stored == Str("pks:")
    ensures d == NullResult <==> stored == Str("null")
    ensures d.ReplayIds? <==> stored.Str? && StartsWith(stored.s, "pks:") && stored.s != "pks:"
    ensures d.Verbatim? ==> d.v == stored && !(stored.Str? && StartsWith(stored.s, "pks:"))
  {
    if stored == Null then Miss
    else if stored == Str("pks:") then EmptyCollection
    else if stored == Str("null") then NullResult
    else if stored.Str? && StartsWith(stored.s, "pks:") then
      // str_replace removes every "pks:", not just the leading one
      ReplayIds(Explode(ReplaceAll(stored.s, "pks:", ""), ','))
    else Verbatim(stored)
  }

  /** The id list of a stored string: "pks:" then implode(',', keys). */
  function EncodeIds(keys: seq<Scalar>): (s: string)
    ensures StartsWith(s, "pks:")
  {
    "pks:" + Implode(PhpStrings(keys), ',')
  }

  /** `$cache_result ?: $result` */
  function Elvis(cacheResult: Option<string>, result: Value): Value
  {
    if cacheResult.Some? && Truthy(SStr(cacheResult.value)) then Str(cacheResult.value) else result
  }

  /** Every id string is truthy, so `?:` always keeps it. */
  lemma IdStringTruthy(keys: seq<Scalar>, result: Value)
    ensures Elvis(Some(EncodeIds(keys)), result) == Str(EncodeIds(keys))
  {
    assert EncodeIds(keys)[0] == 'p';
  }

  /**
   * The Eloquent flavour's `write`: what is put in the store, or
   * PrimaryKeyRequired. Only Eloquent collections and paginators are
   * stored by id, and of a collection only the first item's key is checked.
   */
  function EloquentEncoding(result: Value, keyName: string): (r: Result<Value, Error>)
    ensures result == Null ==> r == Ok(Str("null"))
    ensures result.Collection? && result.kind in {EloquentCollection, Paginator} ==>
      (r.Err? <==> |result.items| > 0 && Attr(result.items[0], keyName) == SNull) &&
      (r.Ok? ==> r.value == Str(EncodeIds(Pluck(result.items, keyName))))
    ensures result.Model? ==>
      (r.Err? <==> Attr(result.attrs, keyName) == SNull) &&
      (r.Ok? ==> r.value == Str(EncodeIds([Attr(result.attrs, keyName)])))
    ensures r.Err? ==> r.error == PrimaryKeyRequired
    ensures !(result == Null || result.Model? || (result.Collection? && result.kind in {EloquentCollection, Paginator})) ==>
      r == Ok(result)
  {
    if result == Null then Ok(Elvis(None, Str("null")))
    else if result.Collection? && result.kind in {EloquentCollection, Paginator} then
      if |result.items| > 0 && Attr(result.items[0], keyName) == SNull then Err(PrimaryKeyRequired)
      else
        IdStringTruthy(Pluck(result.items, keyName), result);
        Ok(Elvis(Some(EncodeIds(Pluck(result.items, keyName))), result))
    else if result.Model? then
      if Attr(result.attrs, keyName) == SNull then Err(PrimaryKeyRequired)
      else
        IdStringTruthy([Attr(result.attrs, keyName)], result);
        assert EncodeIds([Attr(result.attrs, keyName)]) == "pks:" + ToPhpString(Attr(result.attrs, keyName));
        Ok(Elvis(Some("pks:" + ToPhpString(Attr(result.attrs, keyName))), result))
    else Ok(Elvis(None, result))
  }

  /**
   * The Query flavour's `write`: never raises; every collection kind and
   * paginator is stored by id, and a missing key becomes an empty id.
   */
  function QueryEncoding(result: Value, keyName: string): (r: Value)
    ensures result == Null ==> r == Str("null")
    ensures result.Collection? ==> r == Str(EncodeIds(Pluck(result.items, keyName)))
    ensures result.Model? ==> r == Str(EncodeIds([Attr(result.attrs, keyName)]))
    ensures !(result == Null || result.Model? || result.Collection?) ==> r == result
  {
    if result == Null then Elvis(None, Str("null"))
    else if result.Collection? then  // LazyCollection, Collection (Eloquent ones included) or a paginator
      IdStringTruthy(Pluck(result.items, keyName), result);
      Elvis(Some(EncodeIds(Pluck(result.items, keyName))), result)
    else if result.Model? then
      IdStringTruthy([Attr(result.attrs, keyName)], result);
      assert EncodeIds([Attr(result.attrs, keyName)]) == "pks:" + ToPhpString(Attr(result.attrs, keyName));
      Elvis(Some("pks:" + ToPhpString(Attr(result.attrs, keyName))), result)
    else Elvis(None, result)
  }

  // ---------------------------------------------------------------------
  // Round trips
  // ---------------------------------------------------------------------

  /** An id containing neither ',' nor "pks:" survives the encoding. */
  predicate PlainId(s: string)
  {
    ',' !in s && !Occurs("pks:", s)
  }

  /**
   * The ids `get` recovers from a written id list are the string forms of
   * the keys `write` joined, in the same order.
   */
  lemma IdsRoundTrip(keys: seq<Scalar>)
    requires |keys| >= 1 && PhpStrings(keys) != [""]
    requires forall i :: 0 <= i < |keys| ==> PlainId(ToPhpString(keys[i]))
    ensures Decode(Str(EncodeIds(keys))) == ReplayIds(PhpStrings(keys))
  {
    var ss := PhpStrings(keys);
    var joined := Implode(ss, ',');
    JoinedNonEmpty(ss);
    assert |"pks:" + joined| > 4;
    DecodeIdList("pks:" + joined);
    ReplaceAllPrefix("pks:", joined);
    JoinedPlain(ss);
  }

  /** Plain ids joined with ',' contain no "pks:" and split back into themselves. */
  lemma JoinedPlain(ss: seq<string>)
    requires |ss| >= 1
    requires forall i :: 0 <= i < |ss| ==> PlainId(ss[i])
    ensures ReplaceAll(Implode(ss, ','), "pks:", "") == Implode(ss, ',')
    ensures Explode(Implode(ss, ','), ',') == ss
  {
    CommaNotInPrefix();
    NoOccurrenceInImplode(ss, ',', "pks:");
    ReplaceAllNoOccurrence(Implode(ss, ','), "pks:");
    ImplodeExplode(ss, ',');
  }

  lemma CommaNotInPrefix()
    ensures ',' !in "pks:"
  {
    assert "pks:" == ['p', 'k', 's', ':'];
  }

  /** A string longer than "pks:" that starts with it is read as an id list. */
  lemma DecodeIdList(s: string)
    requires StartsWith(s, "pks:") && |s| > 4
    ensures Decode(Str(s)) == ReplayIds(Explode(ReplaceAll(s, "pks:", ""), ','))
  {
    assert s != "null" by { assert s[0] == 'p'; }
    assert s != "pks:";
    assert Str(s) != Null;
  }

  /** A key holding ',' is split into several ids, so the list read back is not the keys written. */
  lemma CommaKeyDoesNotRoundTrip(keys: seq<Scalar>, i: nat)
    requires i < |keys| && ',' in ToPhpString(keys[i])
    ensures Decode(Str(EncodeIds(keys))).ReplayIds?
    ensures Decode(Str(EncodeIds(keys))).ids != PhpStrings(keys)
  {
    var ss := PhpStrings(keys);
    assert ss[i] != "";
    assert ss != [""] by {
      if |ss| == 1 { assert ss[0] != ""; }
    }
    JoinedNonEmpty(ss);
    var s := EncodeIds(keys);
    DecodeIdList(s);
    var ids := Explode(ReplaceAll(s, "pks:", ""), ',');
    if ids == ss {
      assert false;
    }
  }

  /**
   * An id list holding "pks:" anywhere (a key such as "apks:b") loses every
   * occurrence, not just the leading one, so it is not read back as written.
   */
  lemma PksInKeysDoesNotRoundTrip(keys: seq<Scalar>)
    requires Occurs("pks:", Implode(PhpStrings(keys), ','))
    ensures Decode(Str(EncodeIds(keys))).ReplayIds?
    ensures Implode(Decode(Str(EncodeIds(keys))).ids, ',') == ReplaceAll(Implode(PhpStrings(keys), ','), "pks:", "")
    ensures Decode(Str(EncodeIds(keys))).ids != PhpStrings(keys)
  {
    var joined := Implode(PhpStrings(keys), ',');
    OccursLength("pks:", joined);
    var s := EncodeIds(keys);
    DecodeIdList(s);
    ReplaceAllPrefix("pks:", joined);
    ExplodeImplode(ReplaceAll(joined, "pks:", ""), ',');
    ReplaceAllShorter(joined, "pks:");
  }

  /** Joining anything but the single empty id gives a non-empty string. */
  lemma JoinedNonEmpty(ss: seq<string>)
    requires |ss| >= 1 && ss != [""]
    ensures Implode(ss, ',') != ""
  {
    if |ss| == 1 {
      assert ss == [ss[0]];
    } else {
      assert Implode(ss, ',') == ss[0] + [','] + Implode(ss[1..], ',');
    }
  }

  /** Integer keys (the usual auto-increment ids) always round-trip. */
  lemma IntIdsRoundTrip(ids: seq<int>)
    requires |ids| >= 1
    ensures Decode(Str(EncodeIds(seq(|ids|, i requires 0 <= i < |ids| => SInt(ids[i])))))
         == ReplayIds(seq(|ids|, i requires 0 <= i < |ids| => DecimalString(ids[i])))
  {
    var keys := seq(|ids|, i requires 0 <= i < |ids| => SInt(ids[i]));
    forall i | 0 <= i < |keys|
      ensures PlainId(ToPhpString(keys[i]))
    {
      var s := DecimalString(ids[i]);
      assert ',' !in s by {
        forall j | 0 <= j < |s| ensures s[j] != ',' { }
      }
      assert 'p' !in s by {
        forall j | 0 <= j < |s| ensures s[j] != 'p' { }
      }
      NoOccurrenceWithoutFirstChar("pks:", s);
    }
    assert PhpStrings(keys)[0] != "";
    IdsRoundTrip(keys);
    assert PhpStrings(keys) == seq(|ids|, i requires 0 <= i < |ids| => DecimalString(ids[i]));
  }

  /** An empty collection is stored as the bare sentinel and reads back empty. */
  lemma EmptyCollectionRoundTrip(kind: CollectionKind, keyName: string)
    ensures kind in {EloquentCollection, Paginator} ==>
      EloquentEncoding(Collection(kind, []), keyName) == Ok(Str("pks:"))
    ensures QueryEncoding(Collection(kind, []), keyName) == Str("pks:")
    ensures Decode(Str("pks:")) == EmptyCollection
  {
    assert EncodeIds(Pluck([], keyName)) == "pks:";
  }

  /** A null result is stored as "null" and reads back as null, in both flavours. */
  lemma NullRoundTrip(keyName: string)
    ensures EloquentEncoding(Null, keyName) == Ok(Str("null"))
    ensures Decode(QueryEncoding(Null, keyName)) == NullResult
  {
  }

  /**
   * The Query flavour stores a model without a key as "pks:", which reads
   * back as an empty collection.
   */
  lemma QueryKeylessModel(attrs: Attrs, keyName: string)
    requires Attr(attrs, keyName) == SNull
    ensures QueryEncoding(Model(attrs), keyName) == Str("pks:")
    ensures Decode(QueryEncoding(Model(attrs), keyName)) == EmptyCollection
  {
    assert PhpStrings([SNull]) == [""];
  }

  /**
   * A string result that looks like a sentinel is stored verbatim and read
   * back as the sentinel's meaning: "null" comes back as null and "pks:"
   * as an empty collection.
   */
  lemma SentinelStringsCollide(keyName: string)
    ensures EloquentEncoding(Str("null"), keyName) == Ok(Str("null"))
    ensures Decode(QueryEncoding(Str("null"), keyName)) == NullResult
    ensures EloquentEncoding(Str("pks:"), keyName) == Ok(Str("pks:"))
    ensures Decode(QueryEncoding(Str("pks:"), keyName)) == EmptyCollection
  {
  }

  /** Values that are not null, a model or a collection come back unchanged. */
  lemma OtherValuesRoundTrip(v: Value, keyName: string)
    requires v.Int? || v.Bool? || v.Row? || v.Opaque? || (v.Str? && !StartsWith(v.s, "pks:") && v.s != "null")
    ensures EloquentEncoding(v, keyName) == Ok(v)
    ensures Decode(QueryEncoding(v, keyName)) == Verbatim(v)
  {
  }
}

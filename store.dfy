/**
 * The tagged cache store behind `Cache::tags($tags)`. An entry lives under
 * the tag list it was written with and a key; reading it back needs the
 * same tag list. Flushing a tag list drops every entry written under a list
 * that shares a tag with it. A stored null and a missing entry both read
 * back as null.
 */
module Store {
  import opened Php

  datatype Slot = Slot(tags: seq<string>, key: string)

  predicate SharesTag(a: seq<string>, b: seq<string>)
  {
    exists t :: t in a && t in b
  }

  /** `Cache::tags($tags)->get($key)`: null when nothing is stored. */
  function LookupIn(entries: map<Slot, Value>, tags: seq<string>, key: string): (v: Value)
    ensures Slot(tags, key) !in entries ==> v == Null
    ensures Slot(tags, key) in entries ==> v == entries[Slot(tags, key)]
  {
    if Slot(tags, key) in entries then entries[Slot(tags, key)] else Null
  }

  /** `put($key, $value, $seconds)`: a lifetime of zero seconds or less forgets the key. */
  function Stored(entries: map<Slot, Value>, tags: seq<string>, key: string, v: Value, seconds: int): (r: map<Slot, Value>)
    ensures seconds > 0 ==> Slot(tags, key) in r && r[Slot(tags, key)] == v
    ensures seconds <= 0 ==> Slot(tags, key) !in r
    ensures forall s :: s != Slot(tags, key) ==> (s in r <==> s in entries)
    ensures forall s :: s != Slot(tags, key) && s in r ==> r[s] == entries[s]
  {
    if seconds <= 0 then entries - {Slot(tags, key)} else entries[Slot(tags, key) := v]
  }

  /** `flush()`: every entry whose tag list shares a tag with `tags` is dropped. */
  function Flushed(entries: map<Slot, Value>, tags: seq<string>): (r: map<Slot, Value>)
    ensures forall s :: s in r <==> s in entries && !SharesTag(s.tags, tags)
    ensures forall s :: s in r ==> r[s] == entries[s]
  {
    map s | s in entries && !SharesTag(s.tags, tags) :: entries[s]
  }

  /** After a flush, no key written under the same (non-empty) tag list can be read. */
  lemma FlushForgetsScope(entries: map<Slot, Value>, tags: seq<string>, key: string)
    requires |tags| > 0
    ensures LookupIn(Flushed(entries, tags), tags, key) == Null
  {
    assert tags[0] in tags;
    assert SharesTag(tags, tags);
  }

  /** A flush leaves entries of tag lists sharing no tag with it alone. */
  lemma FlushKeepsUnrelated(entries: map<Slot, Value>, tags: seq<string>, other: seq<string>, key: string)
    requires !SharesTag(other, tags)
    ensures LookupIn(Flushed(entries, tags), other, key) == LookupIn(entries, other, key)
  {
  }

  /** A stored value reads back unchanged, under the same tags and key only. */
  lemma PutThenGet(entries: map<Slot, Value>, tags: seq<string>, key: string, v: Value, seconds: int,
                   tags': seq<string>, key': string)
    requires seconds > 0
    ensures LookupIn(Stored(entries, tags, key, v, seconds), tags, key) == v
    ensures (tags', key') != (tags, key) ==>
      LookupIn(Stored(entries, tags, key, v, seconds), tags', key') == LookupIn(entries, tags', key')
  {
  }

  class TaggedStore {
    var entries: map<Slot, Value>

    constructor ()
      ensures entries == map[]
    {
      entries := map[];
    }

    function Get(tags: seq<string>, key: string): Value
      reads this
    {
      LookupIn(entries, tags, key)
    }

    method Put(tags: seq<string>, key: string, v: Value, seconds: int)
      modifies this
      ensures entries == Stored(old(entries), tags, key, v, seconds)
    {
      entries := Stored(entries, tags, key, v, seconds);
    }

    method Flush(tags: seq<string>)
      modifies this
      ensures entries == Flushed(old(entries), tags)
    {
      entries := Flushed(entries, tags);
    }
  }
}

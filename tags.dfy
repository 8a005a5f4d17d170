/**
 * The tag containers a person carries: `UniqueTagList` is a sequence of
 * tags, and `UniqueTagTypeMap` is an ordered association from tag types to
 * tag lists, kept in an object because a person shares it by reference.
 * Only what the modelled code calls is modelled: lookup, `Map.put`,
 * removal of a tag type and wholesale replacement.
 */
module Tags {
  import opened Wrappers
  import opened Values

  /** One tag type with its list of tags. */
  datatype TagEntry = TagEntry(tagType: TagType, tags: seq<Tag>)

  /** A tag-type map's entries, in iteration order. */
  type Entries = seq<TagEntry>

  function KeysOf(es: Entries): set<TagType>
  {
    if es == [] then {} else {es[0].tagType} + KeysOf(es[1..])
  }

  /** No tag type occurs twice. */
  predicate KeysUnique(es: Entries)
  {
    es == [] || (es[0].tagType !in KeysOf(es[1..]) && KeysUnique(es[1..]))
  }

  /** The tag list stored under `t`, if any. */
  function Lookup(es: Entries, t: TagType): (r: Option<seq<Tag>>)
    ensures r.Some? <==> t in KeysOf(es)
  {
    if es == [] then None
    else if es[0].tagType == t then Some(es[0].tags)
    else Lookup(es[1..], t)
  }

  /** `Map.put`: replaces the list stored under `t`, or adds `t` at the end. */
  function Put(es: Entries, t: TagType, v: seq<Tag>): (r: Entries)
    ensures KeysOf(r) == KeysOf(es) + {t}
    ensures KeysUnique(es) ==> KeysUnique(r)
    ensures Lookup(r, t) == Some(v)
    ensures forall u :: u != t ==> Lookup(r, u) == Lookup(es, u)
  {
    if es == [] then [TagEntry(t, v)]
    else if es[0].tagType == t then
      var r := [TagEntry(t, v)] + es[1..];
      assert r[1..] == es[1..];
      r
    else
      var r := [es[0]] + Put(es[1..], t, v);
      assert r[1..] == Put(es[1..], t, v);
      r
  }

  /** The entries without the one for `t`. */
  function Remove(es: Entries, t: TagType): (r: Entries)
    ensures KeysOf(r) == KeysOf(es) - {t}
    ensures KeysUnique(es) ==> KeysUnique(r)
    ensures t !in KeysOf(es) ==> r == es
    ensures forall u :: u != t ==> Lookup(r, u) == Lookup(es, u)
  {
    if es == [] then []
    else
      var rest := Remove(es[1..], t);
      if es[0].tagType == t then rest
      else
        var r := [es[0]] + rest;
        assert r[1..] == rest;
        r
  }

  lemma {:induction false} KeysOfAppend(a: Entries, b: Entries)
    ensures KeysOf(a + b) == KeysOf(a) + KeysOf(b)
  {
    if a != [] {
      assert (a + b)[0] == a[0] && (a + b)[1..] == a[1..] + b;
      KeysOfAppend(a[1..], b);
    } else {
      assert a + b == b;
    }
  }

  /** Uniqueness seen from the last entry: the front is unique and does not hold the last type. */
  lemma {:induction false} KeysUniqueSnoc(a: Entries, e: TagEntry)
    ensures KeysUnique(a + [e]) <==> KeysUnique(a) && e.tagType !in KeysOf(a)
  {
    if a != [] {
      assert (a + [e])[1..] == a[1..] + [e];
      KeysUniqueSnoc(a[1..], e);
      KeysOfAppend(a[1..], [e]);
    }
  }

  /** Putting a type the entries do not hold appends it. */
  lemma {:induction false} PutAbsent(es: Entries, t: TagType, v: seq<Tag>)
    requires t !in KeysOf(es)
    ensures Put(es, t, v) == es + [TagEntry(t, v)]
  {
    if es != [] {
      PutAbsent(es[1..], t, v);
      assert [es[0]] + (es[1..] + [TagEntry(t, v)]) == es + [TagEntry(t, v)];
    }
  }

  /** The entries as a map: what `Map.equals` compares. */
  function AsMap(es: Entries): (m: map<TagType, seq<Tag>>)
    ensures m.Keys == KeysOf(es)
    ensures forall t :: t in m ==> Lookup(es, t) == Some(m[t])
  {
    map t | t in KeysOf(es) :: Lookup(es, t).value
  }

  /** `UniqueTagTypeMap`: a mutable tag-type map. */
  class TagTypeMap {
    var entries: Entries

    /** `new UniqueTagTypeMap()`. */
    constructor ()
      ensures entries == []
    {
      entries := [];
    }

    /** `contains(tagType)`. */
    predicate Contains(t: TagType)
      reads this
    {
      t in KeysOf(entries)
    }

    /** `removeTagType(tagType)`, as `Person.deleteTagType` calls it: only for a type the map contains. */
    method RemoveTagType(t: TagType)
      modifies this
      ensures entries == Remove(old(entries), t)
    {
      entries := Remove(entries, t);
    }

    /** `setTagTypeMap(map)`: replaces the whole contents. */
    method SetTagTypeMap(es: Entries)
      modifies this
      ensures entries == es
    {
      entries := es;
    }
  }
}

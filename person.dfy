/**
 * `Person`: a contact with nine fields. All fields are fixed at
 * construction except the tag-type map, an object the person holds by
 * reference and changes in place.
 *
 * Rendering of the unseen value classes, as `getDetailsAsArray` uses it:
 * a tag list renders as its tag names in list order, a rating as its value
 * and a link as its url.
 */
module Persons {
  import opened Values
  import opened Tags

  /** The contents of a person, as values; `tags` is the tag-type map's entries. */
  datatype PersonData = PersonData(
    name: Name, phone: Phone, email: Email, address: Address, tags: Entries,
    status: Status, note: Note, rating: Rating, links: set<Link>)

  /** Two persons' contents agree field by field, the tag maps compared as maps (`Map.equals`). */
  predicate SameFields(a: PersonData, b: PersonData)
  {
    a.name == b.name && a.phone == b.phone && a.email == b.email && a.address == b.address
    && AsMap(a.tags) == AsMap(b.tags)
    && a.note == b.note && a.status == b.status && a.rating == b.rating && a.links == b.links
  }

  /** The six leading rows of a detail block. */
  function ScalarRows(d: PersonData): seq<seq<string>>
  {
    [ ["Name", d.name.fullName], ["Phone", d.phone.value], ["Email", d.email.value],
      ["Address", d.address.value], ["Status", d.status.status], ["Note", d.note.value] ]
  }

  /** `UniqueTagList.getAsList()`: the tag names in list order. */
  function TagNames(tags: seq<Tag>): (r: seq<string>)
    ensures |r| == |tags|
    ensures forall i :: 0 <= i < |tags| ==> r[i] == tags[i].tagName
  {
    seq(|tags|, i requires 0 <= i < |tags| => tags[i].tagName)
  }

  /** The row of one tag type: "Tag:" and the type name, then the tags. */
  function TagRow(e: TagEntry): seq<string>
  {
    ["Tag:" + e.tagType.name] + TagNames(e.tags)
  }

  function TagRows(es: Entries): (r: seq<seq<string>>)
    ensures |r| == |es|
    ensures forall k :: 0 <= k < |es| ==> r[k] == TagRow(es[k])
  {
    seq(|es|, k requires 0 <= k < |es| => TagRow(es[k]))
  }

  function Urls(links: set<Link>): set<string>
  {
    set l | l in links :: l.url
  }

  /** The distinct cells of a row. */
  function Cells(row: seq<string>): set<string>
  {
    set x | x in row
  }

  /** "Links" followed by every link's url once, in the set's iteration order. */
  predicate IsLinksRow(links: set<Link>, row: seq<string>)
  {
    |row| == |links| + 1 && row[0] == "Links" && Cells(row[1..]) == Urls(links)
  }

  /** The rows `getDetailsAsArray` lays out, given the row its link loop fills. */
  function DetailsBlock(d: PersonData, linksRow: seq<string>): seq<seq<string>>
  {
    ScalarRows(d) + TagRows(d.tags) + [["Rating", d.rating.value], linksRow, []]
  }

  /** `rows` is the detail block of `d` for some iteration order of its links. */
  predicate IsDetailsBlock(d: PersonData, rows: seq<seq<string>>)
  {
    |rows| >= 2 && IsLinksRow(d.links, rows[|rows| - 2]) && rows == DetailsBlock(d, rows[|rows| - 2])
  }

  /**
   * A detail block has 9 rows more than the person has tag types: the six
   * labelled field rows in order, one row per tag type, the rating, the
   * links and a closing empty row, the only empty one.
   */
  lemma DetailsBlockLayout(d: PersonData, rows: seq<seq<string>>)
    requires IsDetailsBlock(d, rows)
    ensures |rows| == 9 + |d.tags|
    ensures rows[0] == ["Name", d.name.fullName] && rows[1] == ["Phone", d.phone.value]
    ensures rows[2] == ["Email", d.email.value] && rows[3] == ["Address", d.address.value]
    ensures rows[4] == ["Status", d.status.status] && rows[5] == ["Note", d.note.value]
    ensures forall k :: 0 <= k < |d.tags| ==>
      rows[6 + k][0] == "Tag:" + d.tags[k].tagType.name && rows[6 + k][1..] == TagNames(d.tags[k].tags)
    ensures rows[6 + |d.tags|] == ["Rating", d.rating.value]
    ensures rows[7 + |d.tags|][0] == "Links" && |rows[7 + |d.tags|]| == |d.links| + 1
    ensures rows[8 + |d.tags|] == []
    ensures forall k :: 0 <= k < |rows| - 1 ==> rows[k] != []
  {
    var n := |d.tags|;
    assert forall k :: 0 <= k < n ==> rows[6 + k] == TagRow(d.tags[k]);
  }

  class Person {
    const name: Name
    const phone: Phone
    const email: Email
    const address: Address
    /** Held by reference: whoever else holds this map sees its changes. */
    const tagTypeMap: TagTypeMap
    const status: Status
    const note: Note
    const rating: Rating
    /** A copy of the set given to the constructor. */
    const links: set<Link>

    /** The nine-argument constructor, to which the others delegate. */
    constructor (name: Name, phone: Phone, email: Email, address: Address, tagTypeMap: TagTypeMap,
                 status: Status, note: Note, rating: Rating, links: set<Link>)
      ensures this.name == name && this.phone == phone && this.email == email && this.address == address
      ensures this.tagTypeMap == tagTypeMap
      ensures this.status == status && this.note == note && this.rating == rating && this.links == links
    {
      this.name := name;
      this.phone := phone;
      this.email := email;
      this.address := address;
      this.tagTypeMap := tagTypeMap;
      this.status := status;
      this.note := note;
      this.rating := rating;
      this.links := links;
    }

    /** Without note, rating and links: an empty note, rating "0" and no links. */
    constructor Basic(name: Name, phone: Phone, email: Email, address: Address, tagTypeMap: TagTypeMap,
                      status: Status)
      ensures this.name == name && this.phone == phone && this.email == email && this.address == address
      ensures this.tagTypeMap == tagTypeMap && this.status == status
      ensures note == Note("") && rating == Rating("0") && links == {}
    {
      this.name := name;
      this.phone := phone;
      this.email := email;
      this.address := address;
      this.tagTypeMap := tagTypeMap;
      this.status := status;
      this.note := Note("");
      this.rating := Rating("0");
      this.links := {};
    }

    /** With a note and links: rating "0". */
    constructor WithNote(name: Name, phone: Phone, email: Email, address: Address, tagTypeMap: TagTypeMap,
                         status: Status, note: Note, links: set<Link>)
      ensures this.name == name && this.phone == phone && this.email == email && this.address == address
      ensures this.tagTypeMap == tagTypeMap && this.status == status
      ensures this.note == note && rating == Rating("0") && this.links == links
    {
      this.name := name;
      this.phone := phone;
      this.email := email;
      this.address := address;
      this.tagTypeMap := tagTypeMap;
      this.status := status;
      this.note := note;
      this.rating := Rating("0");
      this.links := links;
    }

    /** With a rating: an empty note and no links. */
    constructor WithRating(name: Name, phone: Phone, email: Email, address: Address, tagTypeMap: TagTypeMap,
                           status: Status, rating: Rating)
      ensures this.name == name && this.phone == phone && this.email == email && this.address == address
      ensures this.tagTypeMap == tagTypeMap && this.status == status
      ensures note == Note("") && this.rating == rating && links == {}
    {
      this.name := name;
      this.phone := phone;
      this.email := email;
      this.address := address;
      this.tagTypeMap := tagTypeMap;
      this.status := status;
      this.note := Note("");
      this.rating := rating;
      this.links := {};
    }

    /** The person's current contents. */
    function Data(): PersonData
      reads tagTypeMap
    {
      PersonData(name, phone, email, address, tagTypeMap.entries, status, note, rating, links)
    }

    /** `isSamePerson`: the weak notion of identity. */
    predicate IsSamePerson(other: Person?)
      ensures IsSamePerson(other) <==> other != null && other.name == name
    {
      if other == this then true
      else other != null && other.name == name
    }

    /** `equals`: the strong notion of identity. */
    predicate Equals(other: object?)
      reads tagTypeMap, if other is Person then {(other as Person).tagTypeMap} else {}
      ensures Equals(other) <==> other is Person && SameFields((other as Person).Data(), Data())
      ensures Equals(other) ==> other is Person && IsSamePerson(other as Person)
    {
      if other == this then true
      else if !(other is Person) then false
      else
        var otherPerson := other as Person;
        otherPerson.name == name
        && otherPerson.phone == phone
        && otherPerson.email == email
        && otherPerson.address == address
        && AsMap(otherPerson.tagTypeMap.entries) == AsMap(tagTypeMap.entries)
        && otherPerson.note == note
        && otherPerson.status == status
        && otherPerson.rating == rating
        && otherPerson.links == links
    }

    /** `getDetailsAsArray`: the person's block of export rows. */
    method GetDetailsAsArray() returns (personDetails: seq<seq<string>>)
      ensures IsDetailsBlock(Data(), personDetails)
    {
      personDetails := [];
      personDetails := personDetails + [["Name", name.fullName]];
      personDetails := personDetails + [["Phone", phone.value]];
      personDetails := personDetails + [["Email", email.value]];
      personDetails := personDetails + [["Address", address.value]];
      personDetails := personDetails + [["Status", status.status]];
      personDetails := personDetails + [["Note", note.value]];

      var tags := tagTypeMap.entries;
      if tags != [] {
        var k := 0;
        while k < |tags|
          invariant 0 <= k <= |tags|
          invariant personDetails == ScalarRows(Data()) + TagRows(tags[..k])
        {
          var tagWithTagType := ["Tag:" + tags[k].tagType.name] + TagNames(tags[k].tags);
          personDetails := personDetails + [tagWithTagType];
          k := k + 1;
        }
        assert tags[..k] == tags;
      }
      personDetails := personDetails + [["Rating", rating.value]];

      var linklist := LinksRow(links);
      personDetails := personDetails + [linklist, []];
    }

    /** `deleteTagType`: removes the type if the map holds it, and otherwise does nothing. */
    method DeleteTagType(t: TagType)
      modifies tagTypeMap
      ensures tagTypeMap.entries == Remove(old(tagTypeMap.entries), t)
      ensures t !in KeysOf(old(tagTypeMap.entries)) ==> tagTypeMap.entries == old(tagTypeMap.entries)
    {
      if tagTypeMap.Contains(t) {
        tagTypeMap.RemoveTagType(t);
      }
    }

    /** `setTagTypeMap`: copies the given map's entries into the person's own map object. */
    method SetTagTypeMap(replacement: TagTypeMap)
      modifies tagTypeMap
      ensures tagTypeMap.entries == old(replacement.entries)
    {
      tagTypeMap.SetTagTypeMap(replacement.entries);
    }
  }

  /**
   * The "Links" row of `getDetailsAsArray`: an array one longer than the
   * link set, filled with a counter while the set is iterated.
   */
  method LinksRow(links: set<Link>) returns (row: seq<string>)
    ensures IsLinksRow(links, row)
  {
    var linklist := new string[|links| + 1];
    linklist[0] := "Links";
    var i := 1;
    var rest := links;
    while rest != {}
      invariant rest <= links
      invariant 1 <= i && i + |rest| == |links| + 1
      invariant linklist[0] == "Links"
      invariant Cells(linklist[1..i]) == Urls(links - rest)
      decreases |rest|
    {
      var l :| l in rest;
      ghost var before := linklist[1..i];
      linklist[i] := l.url;
      assert linklist[1..i + 1] == before + [l.url];
      CellsSnoc(before, l.url);
      assert links - (rest - {l}) == (links - rest) + {l};
      UrlsInsert(links - rest, l);
      i := i + 1;
      rest := rest - {l};
    }
    assert links - rest == links;
    row := linklist[..];
    assert row[1..] == linklist[1..i];
  }

  lemma CellsSnoc(row: seq<string>, cell: string)
    ensures Cells(row + [cell]) == Cells(row) + {cell}
  {
  }

  lemma UrlsInsert(links: set<Link>, l: Link)
    ensures Urls(links + {l}) == Urls(links) + {l.url}
  {
  }

  /**
   * Two persons built on the same map object share it: setting one
   * person's tag-type map changes what the other holds.
   */
  method SetTagTypeMapOfShared(p: Person, q: Person, replacement: TagTypeMap)
    requires p.tagTypeMap == q.tagTypeMap
    modifies p.tagTypeMap
    ensures q.Data().tags == old(replacement.entries)
    ensures q.Data() == old(q.Data()).(tags := old(replacement.entries))
  {
    p.SetTagTypeMap(replacement);
  }
}

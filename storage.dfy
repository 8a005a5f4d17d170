/**
 * `JsonAdaptedPerson`: the stored form of a person. The six text fields are
 * kept as raw strings (absent when the JSON has no such key), the tag-type
 * map as a list of tag groups whose first element names the tag type.
 * Rating and links are not stored.
 */
module Storage {
  import opened Wrappers
  import opened Values
  import opened Tags
  import opened Persons

  /** `JsonAdaptedTag`: a stored tag, its name. */
  datatype JsonAdaptedTag = JsonAdaptedTag(tagName: string)

  /** `JsonAdaptedTag.toModelType`: the tag, when its name passes `Tag.isValidTagName`. */
  function TagOfJson(rules: Rules, j: JsonAdaptedTag): (r: Result<Tag>)
    ensures r.Ok? <==> rules.validTag(j.tagName)
    ensures r.Ok? ==> r.value == Tag(j.tagName)
    ensures r.Err? ==> r.error == Constraints(TagClass)
  {
    if !rules.validTag(j.tagName) then Err(Constraints(TagClass)) else Ok(Tag(j.tagName))
  }

  datatype JsonAdaptedPerson = JsonAdaptedPerson(
    name: Option<string>, phone: Option<string>, email: Option<string>, address: Option<string>,
    tags: seq<seq<JsonAdaptedTag>>, status: Option<string>, note: Option<string>)

  /** The JSON constructor: the fields as read, and no tag groups when the key is absent. */
  function FromJsonFields(name: Option<string>, phone: Option<string>, email: Option<string>,
                          address: Option<string>, tags: Option<seq<seq<JsonAdaptedTag>>>,
                          status: Option<string>, note: Option<string>): (r: JsonAdaptedPerson)
    ensures tags.None? ==> r.tags == []
    ensures tags.Some? ==> r.tags == tags.value
    ensures r.name == name && r.phone == phone && r.email == email && r.address == address
    ensures r.status == status && r.note == note
  {
    var groups := if tags.Some? then tags.value else [];
    JsonAdaptedPerson(name, phone, email, address, groups, status, note)
  }

  /** The stored group of one tag type: the type name as a tag, then the tags. */
  function TagGroup(e: TagEntry): (g: seq<JsonAdaptedTag>)
    ensures |g| == |e.tags| + 1
    ensures g[0] == JsonAdaptedTag(e.tagType.name)
    ensures forall i :: 0 <= i < |e.tags| ==> g[i + 1] == JsonAdaptedTag(e.tags[i].tagName)
  {
    [JsonAdaptedTag(e.tagType.name)] + seq(|e.tags|, i requires 0 <= i < |e.tags| => JsonAdaptedTag(e.tags[i].tagName))
  }

  function TagGroups(es: Entries): (gs: seq<seq<JsonAdaptedTag>>)
    ensures |gs| == |es|
    ensures forall k :: 0 <= k < |es| ==> gs[k] == TagGroup(es[k])
  {
    seq(|es|, k requires 0 <= k < |es| => TagGroup(es[k]))
  }

  /** The stored form of a person's contents. */
  function Serialise(d: PersonData): JsonAdaptedPerson
  {
    JsonAdaptedPerson(Some(d.name.fullName), Some(d.phone.value), Some(d.email.value), Some(d.address.value),
                      TagGroups(d.tags), Some(d.status.status), Some(d.note.value))
  }

  /** The from-`Person` constructor: copies the raw field strings and writes one group per tag type. */
  method FromPerson(source: Person) returns (j: JsonAdaptedPerson)
    ensures j.name == Some(source.name.fullName) && j.phone == Some(source.phone.value)
    ensures j.email == Some(source.email.value) && j.address == Some(source.address.value)
    ensures j.status == Some(source.status.status) && j.note == Some(source.note.value)
    ensures |j.tags| == |source.tagTypeMap.entries|
    ensures forall k :: 0 <= k < |j.tags| ==>
      |j.tags[k]| == |source.tagTypeMap.entries[k].tags| + 1
      && j.tags[k][0].tagName == source.tagTypeMap.entries[k].tagType.name
      && TagGroup(source.tagTypeMap.entries[k])[1..] == j.tags[k][1..]
    ensures j == Serialise(source.Data())
  {
    var entries := source.tagTypeMap.entries;
    var tags: seq<seq<JsonAdaptedTag>> := [];
    var k := 0;
    while k < |entries|
      invariant 0 <= k <= |entries|
      invariant tags == TagGroups(entries[..k])
    {
      var t := entries[k];
      var list := [JsonAdaptedTag(t.tagType.name)];
      list := list + seq(|t.tags|, i requires 0 <= i < |t.tags| => JsonAdaptedTag(t.tags[i].tagName));
      tags := tags + [list];
      k := k + 1;
    }
    assert entries[..k] == entries;
    j := JsonAdaptedPerson(Some(source.name.fullName), Some(source.phone.value), Some(source.email.value),
                           Some(source.address.value), tags, Some(source.status.status), Some(source.note.value));
  }

  /** The tags of a group after its type: each must be valid. */
  function DecodeTagList(rules: Rules, js: seq<JsonAdaptedTag>): (r: Result<seq<Tag>>)
    ensures r.Ok? <==> forall i :: 0 <= i < |js| ==> rules.validTag(js[i].tagName)
    ensures r.Ok? ==> |r.value| == |js| && forall i :: 0 <= i < |js| ==> r.value[i] == Tag(js[i].tagName)
    ensures r.Err? ==> r.error == Constraints(TagClass)
  {
    if js == [] then Ok([])
    else
      match DecodeTagList(rules, js[..|js| - 1])
      case Err(e) => Err(e)
      case Ok(list) =>
        match TagOfJson(rules, js[|js| - 1])
        case Err(e) => Err(e)
        case Ok(t) => Ok(list + [t])
  }

  /**
   * One group: its first element, validated as a tag, names the type (the
   * tag's text form "[name]" with its brackets cut off) and the registry
   * gives the type's prefix; an empty group fails on `get(0)`.
   */
  function DecodeGroup(rules: Rules, group: seq<JsonAdaptedTag>): (r: Result<TagEntry>)
    ensures group == [] ==> r == Err(IndexOutOfBounds)
    ensures group != [] ==> (r.Ok? <==> forall i :: 0 <= i < |group| ==> rules.validTag(group[i].tagName))
    ensures group != [] && r.Err? ==> r.error == Constraints(TagClass)
    ensures r.Ok? ==> r.value.tagType == TagType(group[0].tagName, rules.prefixOf(group[0].tagName))
    ensures r.Ok? ==> Ok(r.value.tags) == DecodeTagList(rules, group[1..])
  {
    if group == [] then Err(IndexOutOfBounds)
    else
      match TagOfJson(rules, group[0])
      case Err(e) => Err(e)
      case Ok(typeTag) =>
        var tagType := typeTag.tagName;
        var t := TagType(tagType, rules.prefixOf(tagType));
        match DecodeTagList(rules, group[1..])
        case Err(e) => Err(e)
        case Ok(tagList) => Ok(TagEntry(t, tagList))
  }

  /** All groups, in order, each put into the map: a later group of the same type replaces an earlier one. */
  function DecodeGroups(rules: Rules, groups: seq<seq<JsonAdaptedTag>>): (r: Result<Entries>)
    ensures r.Err? ==> r.error == IndexOutOfBounds || r.error == Constraints(TagClass)
  {
    if groups == [] then Ok([])
    else
      match DecodeGroups(rules, groups[..|groups| - 1])
      case Err(e) => Err(e)
      case Ok(es) =>
        match DecodeGroup(rules, groups[|groups| - 1])
        case Err(e) => Err(e)
        case Ok(entry) => Ok(Put(es, entry.tagType, entry.tags))
  }

  /** Once a prefix of the groups fails, decoding all of them fails the same way. */
  lemma {:induction false} DecodeGroupsFailsFirst(rules: Rules, groups: seq<seq<JsonAdaptedTag>>, m: nat)
    requires m <= |groups|
    requires DecodeGroups(rules, groups[..m]).Err?
    ensures DecodeGroups(rules, groups) == DecodeGroups(rules, groups[..m])
  {
    if m < |groups| {
      var front := groups[..|groups| - 1];
      assert front[..m] == groups[..m];
      DecodeGroupsFailsFirst(rules, front, m);
    } else {
      assert groups[..m] == groups;
    }
  }

  /** The order in which `toModelType` checks the text fields. */
  const FieldOrder: seq<ValueClass> := [NameClass, PhoneClass, EmailClass, AddressClass, StatusClass, NoteClass]

  /** The check of one field: missing, or present but invalid. */
  function FieldCheck(value: Option<string>, valid: string -> bool, c: ValueClass): Option<Failure>
  {
    if value.None? then Some(MissingField(c))
    else if !valid(value.value) then Some(Constraints(c))
    else None
  }

  /** Why a field of the stored person is rejected, if it is; a note is only required to be present. */
  function FieldFailure(rules: Rules, j: JsonAdaptedPerson, c: ValueClass): Option<Failure>
  {
    match c
    case NameClass => FieldCheck(j.name, rules.validName, NameClass)
    case PhoneClass => FieldCheck(j.phone, rules.validPhone, PhoneClass)
    case EmailClass => FieldCheck(j.email, rules.validEmail, EmailClass)
    case AddressClass => FieldCheck(j.address, rules.validAddress, AddressClass)
    case StatusClass => FieldCheck(j.status, rules.validStatus, StatusClass)
    case NoteClass => if j.note.None? then Some(MissingField(NoteClass)) else None
    case _ => None
  }

  /** The first failure of a list of checks. */
  function FirstFailure(checks: seq<Option<Failure>>): Option<Failure>
  {
    if checks == [] then None
    else if checks[0].Some? then checks[0]
    else FirstFailure(checks[1..])
  }

  /** `FirstFailure` finds nothing exactly when every check passes, and otherwise reports the earliest failing one. */
  lemma {:induction false} FirstFailureIsFirst(checks: seq<Option<Failure>>)
    ensures FirstFailure(checks) == None <==> forall i :: 0 <= i < |checks| ==> checks[i] == None
    ensures FirstFailure(checks).Some? ==>
      exists k :: (0 <= k < |checks| && checks[k] == FirstFailure(checks)
                   && forall i :: 0 <= i < k ==> checks[i] == None)
  {
    if checks != [] && checks[0].None? {
      FirstFailureIsFirst(checks[1..]);
      if FirstFailure(checks).Some? {
        var k :| 0 <= k < |checks[1..]| && checks[1..][k] == FirstFailure(checks[1..])
          && forall i :: 0 <= i < k ==> checks[1..][i] == None;
        assert checks[k + 1] == FirstFailure(checks);
        assert forall i :: 0 <= i < k + 1 ==> checks[i] == None by {
          forall i | 0 <= i < k + 1
            ensures checks[i] == None
          {
            if i > 0 {
              assert checks[i] == checks[1..][i - 1];
            }
          }
        }
      }
    }
  }

  /** The field checks in `toModelType`'s order. */
  function FieldChecks(rules: Rules, j: JsonAdaptedPerson): (r: seq<Option<Failure>>)
    ensures |r| == |FieldOrder|
    ensures forall k :: 0 <= k < |FieldOrder| ==> r[k] == FieldFailure(rules, j, FieldOrder[k])
  {
    seq(|FieldOrder|, k requires 0 <= k < |FieldOrder| => FieldFailure(rules, j, FieldOrder[k]))
  }

  /**
   * What `toModelType` computes: the tag groups first, then the text fields
   * in order, each missing or invalid one failing at once. The person it
   * builds has rating "0" and no links.
   */
  function Decode(rules: Rules, j: JsonAdaptedPerson): (r: Result<PersonData>)
    ensures DecodeGroups(rules, j.tags).Err? ==> r == Err(DecodeGroups(rules, j.tags).error)
    ensures r.Ok? ==> r.value.tags == DecodeGroups(rules, j.tags).value
    ensures r.Ok? ==> (j.name == Some(r.value.name.fullName) && j.phone == Some(r.value.phone.value)
                       && j.email == Some(r.value.email.value) && j.address == Some(r.value.address.value)
                       && j.status == Some(r.value.status.status) && j.note == Some(r.value.note.value))
    ensures r.Ok? ==> r.value.rating == Rating("0") && r.value.links == {}
  {
    match DecodeGroups(rules, j.tags)
    case Err(e) => Err(e)
    case Ok(personTags) =>
      if j.name.None? then Err(MissingField(NameClass))
      else if !rules.validName(j.name.value) then Err(Constraints(NameClass))
      else if j.phone.None? then Err(MissingField(PhoneClass))
      else if !rules.validPhone(j.phone.value) then Err(Constraints(PhoneClass))
      else if j.email.None? then Err(MissingField(EmailClass))
      else if !rules.validEmail(j.email.value) then Err(Constraints(EmailClass))
      else if j.address.None? then Err(MissingField(AddressClass))
      else if !rules.validAddress(j.address.value) then Err(Constraints(AddressClass))
      else if j.status.None? then Err(MissingField(StatusClass))
      else if !rules.validStatus(j.status.value) then Err(Constraints(StatusClass))
      else if j.note.None? then Err(MissingField(NoteClass))
      else
        Ok(PersonData(Name(j.name.value), Phone(j.phone.value), Email(j.email.value), Address(j.address.value),
                      personTags, Status(j.status.value), Note(j.note.value), Rating("0"), {}))
  }

  /**
   * Once the tag groups decode, `toModelType` fails exactly when some text
   * field check fails, and with the failure of the first one in the order
   * Name, Phone, Email, Address, Status, Note.
   */
  lemma DecodeReportsFirstFieldFailure(rules: Rules, j: JsonAdaptedPerson)
    requires DecodeGroups(rules, j.tags).Ok?
    ensures Decode(rules, j).Ok? <==> FirstFailure(FieldChecks(rules, j)) == None
    ensures Decode(rules, j).Err? ==> FirstFailure(FieldChecks(rules, j)) == Some(Decode(rules, j).error)
  {
    var cs := FieldChecks(rules, j);
    assert cs == [FieldFailure(rules, j, NameClass), FieldFailure(rules, j, PhoneClass),
                  FieldFailure(rules, j, EmailClass), FieldFailure(rules, j, AddressClass),
                  FieldFailure(rules, j, StatusClass), FieldFailure(rules, j, NoteClass)];
    FirstFailureOfSix(cs);
  }

  /** `FirstFailure` of six checks, written out. */
  lemma FirstFailureOfSix(cs: seq<Option<Failure>>)
    requires |cs| == 6
    ensures FirstFailure(cs) ==
      if cs[0].Some? then cs[0] else if cs[1].Some? then cs[1] else if cs[2].Some? then cs[2]
      else if cs[3].Some? then cs[3] else if cs[4].Some? then cs[4] else cs[5]
  {
    var c1 := cs[1..];
    assert FirstFailure(cs) == if cs[0].Some? then cs[0] else FirstFailure(c1);
    var c2 := c1[1..];
    assert FirstFailure(c1) == if c1[0].Some? then c1[0] else FirstFailure(c2);
    var c3 := c2[1..];
    assert FirstFailure(c2) == if c2[0].Some? then c2[0] else FirstFailure(c3);
    var c4 := c3[1..];
    assert FirstFailure(c3) == if c3[0].Some? then c3[0] else FirstFailure(c4);
    var c5 := c4[1..];
    assert FirstFailure(c4) == if c4[0].Some? then c4[0] else FirstFailure(c5);
    assert FirstFailure(c5) == if c5[0].Some? then c5[0] else FirstFailure(c5[1..]);
    assert c5[1..] == [];
  }

  /** The body of `toModelType`'s tag-group loop: the type, then each tag in turn. */
  method ReadGroup(rules: Rules, tags: seq<JsonAdaptedTag>) returns (r: Result<TagEntry>)
    ensures r == DecodeGroup(rules, tags)
  {
    if |tags| == 0 {
      return Err(IndexOutOfBounds);
    }
    var typeTag := TagOfJson(rules, tags[0]);
    if typeTag.Err? {
      return Err(typeTag.error);
    }
    var tagType := typeTag.value.tagName;
    var t := TagType(tagType, rules.prefixOf(tagType));
    var tagList: seq<Tag> := [];
    var i := 1;
    while i < |tags|
      invariant 1 <= i <= |tags|
      invariant DecodeTagList(rules, tags[1..i]) == Ok(tagList)
    {
      assert tags[1..i + 1][..i - 1] == tags[1..i];
      var toModelType := TagOfJson(rules, tags[i]);
      if toModelType.Err? {
        assert !rules.validTag(tags[i].tagName);
        return Err(toModelType.error);
      }
      tagList := tagList + [toModelType.value];
      i := i + 1;
    }
    assert tags[1..i] == tags[1..];
    r := Ok(TagEntry(t, tagList));
  }

  /** The tag-group loop of `toModelType`. */
  method DecodePersonTags(rules: Rules, groups: seq<seq<JsonAdaptedTag>>) returns (r: Result<Entries>)
    ensures r == DecodeGroups(rules, groups)
  {
    var personTags: Entries := [];
    var k := 0;
    while k < |groups|
      invariant 0 <= k <= |groups|
      invariant DecodeGroups(rules, groups[..k]) == Ok(personTags)
    {
      ghost var done := groups[..k + 1];
      assert done[..k] == groups[..k];
      var group := ReadGroup(rules, groups[k]);
      if group.Err? {
        DecodeGroupsFailsFirst(rules, groups, k + 1);
        return Err(group.error);
      }
      personTags := Put(personTags, group.value.tagType, group.value.tags);
      k := k + 1;
    }
    assert groups[..k] == groups;
    r := Ok(personTags);
  }

  /** `toModelType`: builds a new person with a new tag-type map, or fails as `Decode` does. */
  method ToModelType(rules: Rules, j: JsonAdaptedPerson) returns (r: Result<Person>)
    ensures r.Ok? <==> Decode(rules, j).Ok?
    ensures r.Err? ==> r.error == Decode(rules, j).error
    ensures r.Ok? ==> fresh(r.value) && fresh(r.value.tagTypeMap) && r.value.Data() == Decode(rules, j).value
  {
    var decoded := DecodePersonTags(rules, j.tags);
    if decoded.Err? {
      return Err(decoded.error);
    }
    var personTags := decoded.value;

    if j.name.None? {
      return Err(MissingField(NameClass));
    }
    if !rules.validName(j.name.value) {
      return Err(Constraints(NameClass));
    }
    var modelName := Name(j.name.value);

    if j.phone.None? {
      return Err(MissingField(PhoneClass));
    }
    if !rules.validPhone(j.phone.value) {
      return Err(Constraints(PhoneClass));
    }
    var modelPhone := Phone(j.phone.value);

    if j.email.None? {
      return Err(MissingField(EmailClass));
    }
    if !rules.validEmail(j.email.value) {
      return Err(Constraints(EmailClass));
    }
    var modelEmail := Email(j.email.value);

    if j.address.None? {
      return Err(MissingField(AddressClass));
    }
    if !rules.validAddress(j.address.value) {
      return Err(Constraints(AddressClass));
    }
    var modelAddress := Address(j.address.value);

    var modelTags := new TagTypeMap();
    modelTags.SetTagTypeMap(personTags);

    if j.status.None? {
      return Err(MissingField(StatusClass));
    }
    if !rules.validStatus(j.status.value) {
      return Err(Constraints(StatusClass));
    }
    var modelStatus := Status(j.status.value);

    if j.note.None? {
      return Err(MissingField(NoteClass));
    }
    var modelNote := Note(j.note.value);

    var person := new Person(modelName, modelPhone, modelEmail, modelAddress, modelTags, modelStatus,
                             modelNote, Rating("0"), {});
    r := Ok(person);
  }

  /** Every tag type can be written and read back: its name is a valid tag and the registry gives its prefix. */
  predicate StorableTags(rules: Rules, es: Entries)
  {
    forall k :: 0 <= k < |es| ==>
      rules.validTag(es[k].tagType.name)
      && es[k].tagType.prefix == rules.prefixOf(es[k].tagType.name)
      && forall i :: 0 <= i < |es[k].tags| ==> rules.validTag(es[k].tags[i].tagName)
  }

  /** Decoding the groups written for a tag-type map gives the same entries back. */
  lemma {:induction false} DecodeTagGroups(rules: Rules, es: Entries)
    requires StorableTags(rules, es)
    requires KeysUnique(es)
    ensures DecodeGroups(rules, TagGroups(es)) == Ok(es)
  {
    if es != [] {
      var n := |es| - 1;
      var front := es[..n];
      var last := es[n];
      assert es == front + [last];
      KeysUniqueSnoc(front, last);
      assert TagGroups(es)[..n] == TagGroups(front);
      DecodeTagGroups(rules, front);
      var g := TagGroup(last);
      assert g[1..] == seq(|last.tags|, i requires 0 <= i < |last.tags| => JsonAdaptedTag(last.tags[i].tagName));
      assert DecodeTagList(rules, g[1..]).value == last.tags;
      assert DecodeGroup(rules, g) == Ok(last);
      PutAbsent(front, last.tagType, last.tags);
    }
  }

  /**
   * Round trip: the stored form of a person whose fields are valid reads
   * back as the same person, except that rating and links, which are not
   * stored, come back as "0" and none.
   */
  lemma DecodeSerialise(rules: Rules, d: PersonData)
    requires rules.validName(d.name.fullName) && rules.validPhone(d.phone.value)
    requires rules.validEmail(d.email.value) && rules.validAddress(d.address.value)
    requires rules.validStatus(d.status.status)
    requires StorableTags(rules, d.tags) && KeysUnique(d.tags)
    ensures Decode(rules, Serialise(d)) == Ok(d.(rating := Rating("0"), links := {}))
  {
    DecodeTagGroups(rules, d.tags);
  }

  /** No two non-empty groups name the same tag type. */
  predicate DistinctTypeNames(groups: seq<seq<JsonAdaptedTag>>)
  {
    forall a, b :: 0 <= a < b < |groups| && groups[a] != [] && groups[b] != [] ==>
      groups[a][0].tagName != groups[b][0].tagName
  }

  /** A tag type held by the entries is the type of one of them. */
  lemma {:induction false} KeyAt(es: Entries, t: TagType) returns (k: nat)
    requires t in KeysOf(es)
    ensures k < |es| && es[k].tagType == t
  {
    if es[0].tagType == t {
      k := 0;
    } else {
      var j := KeyAt(es[1..], t);
      k := j + 1;
    }
  }

  /** A group that decodes is the group its entry is written as. */
  lemma GroupOfDecode(rules: Rules, group: seq<JsonAdaptedTag>)
    requires DecodeGroup(rules, group).Ok?
    ensures TagGroup(DecodeGroup(rules, group).value) == group
  {
    var g := TagGroup(DecodeGroup(rules, group).value);
    forall i | 1 <= i < |g|
      ensures g[i] == group[i]
    {
      assert group[1..][i - 1] == group[i];
    }
  }

  /** The type of a group whose name no earlier group has is not among the earlier groups' entries. */
  lemma NewTypeName(es: Entries, groups: seq<seq<JsonAdaptedTag>>, t: TagType)
    requires groups != [] && TagGroups(es) == groups[..|groups| - 1]
    requires DistinctTypeNames(groups)
    requires groups[|groups| - 1] != [] && groups[|groups| - 1][0].tagName == t.name
    ensures t !in KeysOf(es)
  {
    if t in KeysOf(es) {
      var k := KeyAt(es, t);
      assert false;
    }
  }

  /** The front of distinct groups is distinct. */
  lemma DistinctFront(groups: seq<seq<JsonAdaptedTag>>, n: nat)
    requires n <= |groups| && DistinctTypeNames(groups)
    ensures DistinctTypeNames(groups[..n])
  {
    var front: seq<seq<JsonAdaptedTag>> := groups[..n];
    forall a, b | 0 <= a < b < |front| && front[a] != [] && front[b] != []
      ensures front[a][0].tagName != front[b][0].tagName
    {
      assert front[a] == groups[a] && front[b] == groups[b];
    }
  }

  /**
   * The other round trip: groups that decode, no two of them naming the
   * same type, are written back exactly as they were read, since no group
   * replaced another in the map.
   */
  lemma {:induction false} TagGroupsOfDecode(rules: Rules, groups: seq<seq<JsonAdaptedTag>>)
    requires DecodeGroups(rules, groups).Ok?
    requires DistinctTypeNames(groups)
    ensures TagGroups(DecodeGroups(rules, groups).value) == groups
  {
    if groups != [] {
      var n := |groups| - 1;
      var front := groups[..n];
      var es := DecodeGroups(rules, front).value;
      var entry := DecodeGroup(rules, groups[n]).value;
      DistinctFront(groups, n);
      TagGroupsOfDecode(rules, front);
      NewTypeName(es, groups, entry.tagType);
      PutAbsent(es, entry.tagType, entry.tags);
      GroupOfDecode(rules, groups[n]);
      assert TagGroups(es + [entry]) == TagGroups(es) + [TagGroup(entry)];
      assert front + [groups[n]] == groups;
    }
  }

  /**
   * A stored person that reads back, its groups naming distinct types, is
   * written out again as it was stored.
   */
  lemma SerialiseDecode(rules: Rules, j: JsonAdaptedPerson)
    requires Decode(rules, j).Ok?
    requires DistinctTypeNames(j.tags)
    ensures Serialise(Decode(rules, j).value) == j
  {
    TagGroupsOfDecode(rules, j.tags);
  }
}

/**
 * `ParserUtil`: the field parsers used by every command parser. Each one
 * trims its input, checks it against the value class's rule and builds the
 * value, or fails with that class's constraint message.
 */
module ParserUtil {
  import opened Wrappers
  import opened JavaString
  import opened Values
  import opened Tags

  const MessageInvalidIndex := "Index is not a non-zero unsigned integer."
  const MessageMissingHyphen := "Old and new tag types and tag prefixes must be separated by a hyphen!"

  /** `Integer.MAX_VALUE`, the largest value `Integer.parseInt` accepts. */
  const IntMax: nat := 0x7fff_ffff

  /** `StringUtil.isNonZeroUnsignedInteger`: decimal digits whose value is in 1..Integer.MAX_VALUE. */
  predicate IsNonZeroUnsignedInteger(s: string)
  {
    IsDigits(s) && 0 < DigitsValue(s) <= IntMax
  }

  /** `parseIndex`. */
  function ParseIndex(oneBasedIndex: string): (r: Result<Index>)
    ensures r.Ok? <==> IsNonZeroUnsignedInteger(Trim(oneBasedIndex))
    ensures r.Ok? ==> r.value.zeroBased + 1 == DigitsValue(Trim(oneBasedIndex))
    ensures r.Err? ==> r.error == Message(MessageInvalidIndex)
  {
    var trimmedIndex := Trim(oneBasedIndex);
    if !IsNonZeroUnsignedInteger(trimmedIndex) then Err(Message(MessageInvalidIndex))
    else Ok(FromOneBased(DigitsValue(trimmedIndex)))
  }

  /**
   * The decimal rendering of any one-based index from 1 to Integer.MAX_VALUE,
   * with any surrounding whitespace, parses back to that index.
   */
  lemma ParseIndexOfDecimal(pre: string, n: nat, post: string)
    requires forall i :: 0 <= i < |pre| ==> IsTrimChar(pre[i])
    requires forall i :: 0 <= i < |post| ==> IsTrimChar(post[i])
    requires 1 <= n <= IntMax
    ensures ParseIndex(pre + DecimalString(n) + post) == Ok(FromOneBased(n))
  {
    TrimOfPadded(pre, DecimalString(n), post);
    DigitsValueOfDecimal(n);
  }

  /** `parseName`. */
  function ParseName(rules: Rules, name: string): (r: Result<Name>)
    ensures r.Ok? <==> rules.validName(Trim(name))
    ensures r.Ok? ==> r.value.fullName == Trim(name)
    ensures r.Err? ==> r.error == Constraints(NameClass)
  {
    var trimmedName := Trim(name);
    if !rules.validName(trimmedName) then Err(Constraints(NameClass)) else Ok(Name(trimmedName))
  }

  /** `parsePhone`. */
  function ParsePhone(rules: Rules, phone: string): (r: Result<Phone>)
    ensures r.Ok? <==> rules.validPhone(Trim(phone))
    ensures r.Ok? ==> r.value.value == Trim(phone)
    ensures r.Err? ==> r.error == Constraints(PhoneClass)
  {
    var trimmedPhone := Trim(phone);
    if !rules.validPhone(trimmedPhone) then Err(Constraints(PhoneClass)) else Ok(Phone(trimmedPhone))
  }

  /** `parseAddress`. */
  function ParseAddress(rules: Rules, address: string): (r: Result<Address>)
    ensures r.Ok? <==> rules.validAddress(Trim(address))
    ensures r.Ok? ==> r.value.value == Trim(address)
    ensures r.Err? ==> r.error == Constraints(AddressClass)
  {
    var trimmedAddress := Trim(address);
    if !rules.validAddress(trimmedAddress) then Err(Constraints(AddressClass)) else Ok(Address(trimmedAddress))
  }

  /** `parseEmail`. */
  function ParseEmail(rules: Rules, email: string): (r: Result<Email>)
    ensures r.Ok? <==> rules.validEmail(Trim(email))
    ensures r.Ok? ==> r.value.value == Trim(email)
    ensures r.Err? ==> r.error == Constraints(EmailClass)
  {
    var trimmedEmail := Trim(email);
    if !rules.validEmail(trimmedEmail) then Err(Constraints(EmailClass)) else Ok(Email(trimmedEmail))
  }

  /** `parseStatus`. */
  function ParseStatus(rules: Rules, status: string): (r: Result<Status>)
    ensures r.Ok? <==> rules.validStatus(Trim(status))
    ensures r.Ok? ==> r.value.status == Trim(status)
    ensures r.Err? ==> r.error == Constraints(StatusClass)
  {
    var trimmedStatus := Trim(status);
    if !rules.validStatus(trimmedStatus) then Err(Constraints(StatusClass)) else Ok(Status(trimmedStatus))
  }

  /** `parseNote`: declared to throw, but accepts every string. */
  function ParseNote(note: string): (r: Result<Note>)
    ensures r.Ok? && r.value.value == Trim(note)
  {
    Ok(Note(Trim(note)))
  }

  /**
   * Re-parsing the text of a parsed value gives the same value, and parsing
   * depends only on the trimmed input.
   */
  lemma ParsedValuesReparse(rules: Rules, raw: string)
    ensures ParseName(rules, raw) == ParseName(rules, Trim(raw))
    ensures ParseName(rules, raw).Ok? ==> ParseName(rules, ParseName(rules, raw).value.fullName) == ParseName(rules, raw)
    ensures ParsePhone(rules, raw) == ParsePhone(rules, Trim(raw))
    ensures ParsePhone(rules, raw).Ok? ==> ParsePhone(rules, ParsePhone(rules, raw).value.value) == ParsePhone(rules, raw)
    ensures ParseAddress(rules, raw) == ParseAddress(rules, Trim(raw))
    ensures ParseAddress(rules, raw).Ok? ==> ParseAddress(rules, ParseAddress(rules, raw).value.value) == ParseAddress(rules, raw)
    ensures ParseEmail(rules, raw) == ParseEmail(rules, Trim(raw))
    ensures ParseEmail(rules, raw).Ok? ==> ParseEmail(rules, ParseEmail(rules, raw).value.value) == ParseEmail(rules, raw)
    ensures ParseStatus(rules, raw) == ParseStatus(rules, Trim(raw))
    ensures ParseStatus(rules, raw).Ok? ==> ParseStatus(rules, ParseStatus(rules, raw).value.status) == ParseStatus(rules, raw)
    ensures ParseNote(raw) == ParseNote(Trim(raw))
    ensures ParseNote(ParseNote(raw).value.value) == ParseNote(raw)
  {
    TrimIdempotent(raw);
  }

  /** Parses every string in order and stops at the first failure. */
  function ListOf<T>(raws: seq<string>, parse: string -> Result<T>): Result<seq<T>>
  {
    if raws == [] then Ok([])
    else
      match ListOf(raws[..|raws| - 1], parse)
      case Err(e) => Err(e)
      case Ok(list) =>
        match parse(raws[|raws| - 1])
        case Err(e) => Err(e)
        case Ok(x) => Ok(list + [x])
  }

  /** The list succeeds exactly when every string parses, and then holds every value in order; otherwise it fails as some string does. */
  lemma {:induction false} ListOfElementwise<T>(raws: seq<string>, parse: string -> Result<T>)
    ensures ListOf(raws, parse).Ok? <==> forall i :: 0 <= i < |raws| ==> parse(raws[i]).Ok?
    ensures ListOf(raws, parse).Ok? ==> |ListOf(raws, parse).value| == |raws|
    ensures ListOf(raws, parse).Ok? ==>
      forall i :: 0 <= i < |raws| ==> ListOf(raws, parse).value[i] == parse(raws[i]).value
    ensures ListOf(raws, parse).Err? ==>
      exists i :: 0 <= i < |raws| && parse(raws[i]).Err? && ListOf(raws, parse).error == parse(raws[i]).error
  {
    if raws != [] {
      var front := raws[..|raws| - 1];
      ListOfElementwise(front, parse);
      assert forall i :: 0 <= i < |front| ==> front[i] == raws[i];
      if ListOf(front, parse).Ok? && parse(raws[|raws| - 1]).Ok? {
        assert ListOf(raws, parse).value == ListOf(front, parse).value + [parse(raws[|raws| - 1]).value];
      }
    }
  }

  /** One iteration of `parseTagList`: the trimmed tag, or the tag constraint message. */
  function TagOf(rules: Rules, raw: string): (r: Result<Tag>)
    ensures r.Ok? <==> rules.validTag(Trim(raw))
    ensures r.Ok? ==> r.value == Tag(Trim(raw))
    ensures r.Err? ==> r.error == Constraints(TagClass)
  {
    var t := Trim(raw);
    if !rules.validTag(t) then Err(Constraints(TagClass)) else Ok(Tag(t))
  }

  /** What `parseTagList` computes: the trimmed tags in input order, or the tag constraint message. */
  function TagListOf(rules: Rules, tags: seq<string>): Result<seq<Tag>>
  {
    ListOf(tags, raw => TagOf(rules, raw))
  }

  /**
   * The tag list succeeds exactly when every trimmed tag is valid, and then
   * holds them all, in order; otherwise it fails with the tag constraint message.
   */
  lemma TagListOfElementwise(rules: Rules, tags: seq<string>)
    ensures TagListOf(rules, tags).Ok? <==> forall i :: 0 <= i < |tags| ==> rules.validTag(Trim(tags[i]))
    ensures TagListOf(rules, tags).Ok? ==> |TagListOf(rules, tags).value| == |tags|
    ensures TagListOf(rules, tags).Ok? ==>
      forall i :: 0 <= i < |tags| ==> TagListOf(rules, tags).value[i] == Tag(Trim(tags[i]))
    ensures TagListOf(rules, tags).Err? ==> TagListOf(rules, tags).error == Constraints(TagClass)
  {
    ListOfElementwise(tags, raw => TagOf(rules, raw));
  }

  /** `parseTagList`: fails at the first tag whose trimmed text is invalid. */
  method ParseTagList(rules: Rules, tags: seq<string>) returns (r: Result<seq<Tag>>)
    ensures r == TagListOf(rules, tags)
  {
    var tagList: seq<Tag> := [];
    var k := 0;
    while k < |tags|
      invariant 0 <= k <= |tags|
      invariant TagListOf(rules, tags[..k]) == Ok(tagList)
    {
      assert tags[..k + 1][..k] == tags[..k];
      var t := Trim(tags[k]);
      if !rules.validTag(t) {
        TagListOfElementwise(rules, tags);
        return Err(Constraints(TagClass));
      }
      tagList := tagList + [Tag(t)];
      k := k + 1;
    }
    assert tags[..k] == tags;
    r := Ok(tagList);
  }

  /** A prefix-keyed argument map, in iteration order. */
  type PrefixArguments = seq<(Prefix, seq<string>)>

  /** What `parseTags` computes: one entry per prefix with a non-empty list, keyed by its registered tag type. */
  function TagsOf(rules: Rules, groups: PrefixArguments): (r: Result<Entries>)
    ensures r.Err? ==> r.error == Constraints(TagClass)
  {
    if groups == [] then Ok([])
    else
      var last := groups[|groups| - 1];
      match TagsOf(rules, groups[..|groups| - 1])
      case Err(e) => Err(e)
      case Ok(es) =>
        if |last.1| == 0 then Ok(es)
        else
          match TagListOf(rules, last.1)
          case Err(e) => TagListOfElementwise(rules, last.1); Err(e)
          case Ok(list) => Ok(Put(es, rules.tagTypeOf(last.0), list))
  }

  /** Every prefix's list holds only valid tags. */
  predicate AllTagListsValid(rules: Rules, groups: PrefixArguments)
  {
    forall i :: 0 <= i < |groups| ==> TagListOf(rules, groups[i].1).Ok?
  }

  /** `parseTags` succeeds exactly when every tag of every list is valid. */
  lemma {:induction false} TagsOfSucceedsIff(rules: Rules, groups: PrefixArguments)
    ensures TagsOf(rules, groups).Ok? <==> AllTagListsValid(rules, groups)
  {
    if groups != [] {
      var n := |groups| - 1;
      var front := groups[..n];
      TagsOfSucceedsIff(rules, front);
      TagsOfStep(rules, groups);
      AllTagListsValidStep(rules, groups);
    }
  }

  lemma AllTagListsValidStep(rules: Rules, groups: PrefixArguments)
    requires groups != []
    ensures AllTagListsValid(rules, groups) <==>
      AllTagListsValid(rules, groups[..|groups| - 1]) && TagListOf(rules, groups[|groups| - 1].1).Ok?
  {
    var front := groups[..|groups| - 1];
    assert forall i :: 0 <= i < |front| ==> front[i] == groups[i];
  }

  lemma TagsOfStep(rules: Rules, groups: PrefixArguments)
    requires groups != []
    ensures TagsOf(rules, groups).Ok? <==>
      TagsOf(rules, groups[..|groups| - 1]).Ok? && TagListOf(rules, groups[|groups| - 1].1).Ok?
  {
    assert TagListOf(rules, []).Ok?;
  }

  /** The registry gives distinct prefixes distinct tag types. */
  predicate DistinctTagTypes(rules: Rules, groups: PrefixArguments)
  {
    forall i, j :: 0 <= i < j < |groups| ==> rules.tagTypeOf(groups[i].0) != rules.tagTypeOf(groups[j].0)
  }

  /** The tag types of the prefixes whose lists are non-empty. */
  function NonEmptyTagTypes(rules: Rules, groups: PrefixArguments): set<TagType>
  {
    set i | 0 <= i < |groups| && groups[i].1 != [] :: rules.tagTypeOf(groups[i].0)
  }

  /** The list `parseTags` stores for a prefix's arguments, if it stores one. */
  predicate StoredAs(rules: Rules, stored: Option<seq<Tag>>, values: seq<string>)
  {
    if values == [] then stored == None else stored.Some? && Ok(stored.value) == TagListOf(rules, values)
  }

  /**
   * `parseTags` creates no entry for a prefix whose list is empty and gives
   * every other prefix's tag type exactly the parsed list of that prefix.
   */
  lemma {:induction false} TagsOfByPrefix(rules: Rules, groups: PrefixArguments)
    requires DistinctTagTypes(rules, groups)
    requires TagsOf(rules, groups).Ok?
    ensures KeysUnique(TagsOf(rules, groups).value)
    ensures KeysOf(TagsOf(rules, groups).value) == NonEmptyTagTypes(rules, groups)
    ensures forall i :: 0 <= i < |groups| ==>
      StoredAs(rules, Lookup(TagsOf(rules, groups).value, rules.tagTypeOf(groups[i].0)), groups[i].1)
  {
    if groups != [] {
      var n := |groups| - 1;
      var front := groups[..n];
      assert forall i :: 0 <= i < n ==> front[i] == groups[i];
      TagsOfStep(rules, groups);
      TagsOfByPrefix(rules, front);
      var es := TagsOf(rules, front).value;
      var t := rules.tagTypeOf(groups[n].0);
      assert t !in KeysOf(es);
      NonEmptyTagTypesStep(rules, groups);
      TagsOfValueStep(rules, groups);
    }
  }

  lemma NonEmptyTagTypesStep(rules: Rules, groups: PrefixArguments)
    requires groups != []
    ensures NonEmptyTagTypes(rules, groups) ==
      NonEmptyTagTypes(rules, groups[..|groups| - 1])
        + (if groups[|groups| - 1].1 == [] then {} else {rules.tagTypeOf(groups[|groups| - 1].0)})
  {
    var front := groups[..|groups| - 1];
    assert forall i :: 0 <= i < |front| ==> front[i] == groups[i];
  }

  lemma TagsOfValueStep(rules: Rules, groups: PrefixArguments)
    requires groups != [] && TagsOf(rules, groups).Ok?
    ensures TagsOf(rules, groups[..|groups| - 1]).Ok?
    ensures groups[|groups| - 1].1 == [] ==> TagsOf(rules, groups).value == TagsOf(rules, groups[..|groups| - 1]).value
    ensures groups[|groups| - 1].1 != [] ==>
      TagListOf(rules, groups[|groups| - 1].1).Ok? &&
      TagsOf(rules, groups).value
        == Put(TagsOf(rules, groups[..|groups| - 1]).value, rules.tagTypeOf(groups[|groups| - 1].0), TagListOf(rules, groups[|groups| - 1].1).value)
  {
  }

  /** One invalid list makes the whole map fail with the tag constraint message. */
  lemma TagsOfFailsAt(rules: Rules, groups: PrefixArguments, k: nat)
    requires k < |groups| && TagListOf(rules, groups[k].1).Err?
    ensures TagsOf(rules, groups) == Err(Constraints(TagClass))
  {
    TagsOfSucceedsIff(rules, groups);
  }

  /** `parseTags`: builds a fresh tag-type map from the non-empty prefix lists. */
  method ParseTags(rules: Rules, groups: PrefixArguments) returns (r: Result<TagTypeMap>)
    ensures r.Ok? <==> TagsOf(rules, groups).Ok?
    ensures r.Ok? ==> fresh(r.value) && r.value.entries == TagsOf(rules, groups).value
    ensures r.Err? ==> r.error == TagsOf(rules, groups).error
  {
    var tagTypeMap: Entries := [];
    var k := 0;
    while k < |groups|
      invariant 0 <= k <= |groups|
      invariant TagsOf(rules, groups[..k]) == Ok(tagTypeMap)
    {
      ghost var done := groups[..k + 1];
      assert done[..k] == groups[..k];
      var (prefix, values) := groups[k];
      if |values| != 0 {
        var list := ParseTagList(rules, values);
        if list.Err? {
          TagListOfElementwise(rules, values);
          TagsOfFailsAt(rules, groups, k);
          return Err(list.error);
        }
        tagTypeMap := Put(tagTypeMap, rules.tagTypeOf(prefix), list.value);
      }
      k := k + 1;
    }
    assert groups[..k] == groups;
    var tagMap := new TagTypeMap();
    tagMap.SetTagTypeMap(tagTypeMap);
    r := Ok(tagMap);
  }

  /** `parsePrefix`: the trimmed name with "/" appended. */
  function ParsePrefix(rules: Rules, prefix: string): (r: Result<Prefix>)
    ensures r.Ok? <==> rules.validPrefixName(Trim(prefix))
    ensures r.Ok? ==> r.value.prefix == Trim(prefix) + "/"
    ensures r.Err? ==> r.error == Constraints(PrefixClass)
  {
    var trimmedPrefix := Trim(prefix);
    if !rules.validPrefixName(trimmedPrefix) then Err(Constraints(PrefixClass))
    else Ok(Prefix(trimmedPrefix + "/"))
  }

  /** `parseTagType(String, String)`: the tag-type name is checked before the prefix. */
  function ParseTagType(rules: Rules, tagType: string, prefix: string): (r: Result<TagType>)
    ensures r.Ok? <==> rules.validTagType(Trim(tagType)) && rules.validPrefixName(Trim(prefix))
    ensures r.Ok? ==> r.value == TagType(Trim(tagType), Prefix(Trim(prefix) + "/"))
    ensures !rules.validTagType(Trim(tagType)) ==> r == Err(Constraints(TagTypeClass))
    ensures rules.validTagType(Trim(tagType)) && !rules.validPrefixName(Trim(prefix))
      ==> r == Err(Constraints(PrefixClass))
  {
    var trimmedTagType := Trim(tagType);
    if !rules.validTagType(trimmedTagType) then Err(Constraints(TagTypeClass))
    else
      match ParsePrefix(rules, prefix)
      case Err(e) => Err(e)
      case Ok(pref) => Ok(TagType(trimmedTagType, pref))
  }

  /** `parseTagType(String, Prefix)`: the prefix is taken as given. */
  function ParseTagTypeWithPrefix(rules: Rules, tagType: string, prefix: Prefix): (r: Result<TagType>)
    ensures r.Ok? <==> rules.validTagType(Trim(tagType))
    ensures r.Ok? ==> r.value == TagType(Trim(tagType), prefix)
    ensures r.Err? ==> r.error == Constraints(TagTypeClass)
  {
    var trimmedTagType := Trim(tagType);
    if !rules.validTagType(trimmedTagType) then Err(Constraints(TagTypeClass))
    else Ok(TagType(trimmedTagType, prefix))
  }

  /** `s.split("-", 2)`: the text before the first hyphen and all the rest, or the whole string. */
  function SplitAtFirstHyphen(s: string): seq<string>
  {
    var h := IndexOf(s, '-');
    if h == |s| then [s] else [s[..h], s[h + 1..]]
  }

  /** Splitting a joined pair gives the pair back when the first part has no hyphen. */
  lemma SplitOfJoined(before: string, after: string)
    requires '-' !in before
    ensures SplitAtFirstHyphen(before + "-" + after) == [before, after]
  {
    var s := before + "-" + after;
    assert s[|before|] == '-';
    assert s[..|before|] == before;
    assert s[|before| + 1..] == after;
  }

  /** `parseHyphen`: the trimmed text before the first hyphen and the trimmed rest. */
  method ParseHyphen(oldNew: string) returns (r: Result<seq<string>>)
    ensures r.Ok? <==> '-' in oldNew
    ensures r.Ok? ==> exists before, after ::
      oldNew == before + "-" + after && '-' !in before && r.value == [Trim(before), Trim(after)]
    ensures r.Err? ==> r.error == Message(MessageMissingHyphen)
  {
    var split := SplitAtFirstHyphen(oldNew);
    if |split| != 2 {
      return Err(Message(MessageMissingHyphen));
    }
    var oldNewPair := new string[2];
    oldNewPair[0], oldNewPair[1] := split[0], split[1];
    assert oldNew == oldNewPair[0] + "-" + oldNewPair[1];
    oldNewPair[0] := Trim(oldNewPair[0]);
    oldNewPair[1] := Trim(oldNewPair[1]);
    r := Ok(oldNewPair[..]);
  }

  /** The loop shared by `parseNames` and its siblings: parses every string and collects the values in a set. */
  method ParseEach<T(==)>(raws: seq<string>, parse: string -> Result<T>) returns (r: Result<set<T>>)
    ensures r.Ok? <==> forall i :: 0 <= i < |raws| ==> parse(raws[i]).Ok?
    ensures r.Ok? ==> r.value == set i | 0 <= i < |raws| :: parse(raws[i]).value
    ensures r.Err? ==> exists i :: 0 <= i < |raws| && parse(raws[i]).Err? && r.error == parse(raws[i]).error
                               && (forall j :: 0 <= j < i ==> parse(raws[j]).Ok?)
  {
    var values: set<T> := {};
    var k := 0;
    while k < |raws|
      invariant 0 <= k <= |raws|
      invariant forall i :: 0 <= i < k ==> parse(raws[i]).Ok?
      invariant values == set i | 0 <= i < k :: parse(raws[i]).value
    {
      var v := parse(raws[k]);
      if v.Err? {
        return Err(v.error);
      }
      assert (set i | 0 <= i < k + 1 :: parse(raws[i]).value)
        == (set i | 0 <= i < k :: parse(raws[i]).value) + {v.value};
      values := values + {v.value};
      k := k + 1;
    }
    r := Ok(values);
  }

  /** `parseNames`. */
  method ParseNames(rules: Rules, names: seq<string>) returns (r: Result<set<Name>>)
    ensures r.Ok? <==> forall i :: 0 <= i < |names| ==> rules.validName(Trim(names[i]))
    ensures r.Ok? ==> r.value == set i | 0 <= i < |names| :: Name(Trim(names[i]))
    ensures r.Err? ==> r.error == Constraints(NameClass)
  {
    r := ParseEach(names, s => ParseName(rules, s));
  }

  /** `parsePhones`. */
  method ParsePhones(rules: Rules, phones: seq<string>) returns (r: Result<set<Phone>>)
    ensures r.Ok? <==> forall i :: 0 <= i < |phones| ==> rules.validPhone(Trim(phones[i]))
    ensures r.Ok? ==> r.value == set i | 0 <= i < |phones| :: Phone(Trim(phones[i]))
    ensures r.Err? ==> r.error == Constraints(PhoneClass)
  {
    r := ParseEach(phones, s => ParsePhone(rules, s));
  }

  /** `parseEmails`. */
  method ParseEmails(rules: Rules, emails: seq<string>) returns (r: Result<set<Email>>)
    ensures r.Ok? <==> forall i :: 0 <= i < |emails| ==> rules.validEmail(Trim(emails[i]))
    ensures r.Ok? ==> r.value == set i | 0 <= i < |emails| :: Email(Trim(emails[i]))
    ensures r.Err? ==> r.error == Constraints(EmailClass)
  {
    r := ParseEach(emails, s => ParseEmail(rules, s));
  }

  /** `parseAddresses`. */
  method ParseAddresses(rules: Rules, addresses: seq<string>) returns (r: Result<set<Address>>)
    ensures r.Ok? <==> forall i :: 0 <= i < |addresses| ==> rules.validAddress(Trim(addresses[i]))
    ensures r.Ok? ==> r.value == set i | 0 <= i < |addresses| :: Address(Trim(addresses[i]))
    ensures r.Err? ==> r.error == Constraints(AddressClass)
  {
    r := ParseEach(addresses, s => ParseAddress(rules, s));
  }

  /** `parseStatuses`. */
  method ParseStatuses(rules: Rules, statuses: seq<string>) returns (r: Result<set<Status>>)
    ensures r.Ok? <==> forall i :: 0 <= i < |statuses| ==> rules.validStatus(Trim(statuses[i]))
    ensures r.Ok? ==> r.value == set i | 0 <= i < |statuses| :: Status(Trim(statuses[i]))
    ensures r.Err? ==> r.error == Constraints(StatusClass)
  {
    r := ParseEach(statuses, s => ParseStatus(rules, s));
  }

  /** `parseNotes`: never fails. */
  method ParseNotes(notes: seq<string>) returns (r: Result<set<Note>>)
    ensures r.Ok? && r.value == set i | 0 <= i < |notes| :: Note(Trim(notes[i]))
  {
    r := ParseEach(notes, s => ParseNote(s));
  }
}

# CLInkedIn core, modelled in Dafny

CLInkedIn is a command-line contact manager. Each person record holds a
name, a phone number, an e-mail address, a postal address, a status, a note,
a rating, a set of links, and a map from tag types to tag lists. This
project models five parts of it:

- `ParserUtil`: turns argument strings into value objects, indices, tag
  lists, tag-type maps, prefixes and tag types. The module is
  `ParserUtil` in `parser_util.dfy`.
- `Person`: the record, its identity, its equality, the row layout used to
  export it, and the two operations that change its tag-type map. The
  module is `Persons` in `person.dfy`.
- `JsonAdaptedPerson`: the stored form of a person, and its conversion
  back into a person. The module is `Storage` in `storage.dfy`.
- `AddressBookParser`: splits a command line into a command word and its
  arguments, and picks the command for that word. The module is
  `AddressBookParser` in `address_book_parser.dfy`.
- `ExportCommand`: flattens the listed persons into CSV rows, or asks for
  the export window. The module is `Commands` in `export_command.dfy`.

Supporting modules:

- `Wrappers` holds `Option`, `Result` and the failure kinds.
- `JavaString` holds Java's `trim`, ASCII `toLowerCase`, `indexOf`, and
  decimal digits.
- `Values` holds the value objects.
- `Tags` holds the tag-type map. It is an association list with
  `HashMap.put` and `remove` semantics, wrapped in a `TagTypeMap` class
  whose entries are updated in place.

The validation patterns of the value objects are not part of the model.
Neither is the process-wide registry of tag types and prefixes kept by
`UniqueTagTypeMap`. Both are fields of a `Rules` value that every operation
takes as a parameter, so every property below holds whatever those
patterns are.

`Person` is a class. All of its fields are `const`, because none is ever
reassigned. Its tag-type map is a shared `TagTypeMap` object, updated in
place. The methods `ToCsvFormat`, `FromPerson`, `ToModelType`,
`ParseTagList`, `ParseTags` and `GetDetailsAsArray` keep the source's
loops. Each is proved against a specification function:

- `IsCsv` and `IsDetailsBlock` specify the rows;
- `Serialise` and `Decode` specify the stored form;
- `TagListOf` and `TagsOf` specify tag parsing.

Lemmas about those functions give the round trips and layouts, listed in
the table below. `ParseHyphen` has no loop. It keeps the source's
two-element array, and its contract states the split directly.

Source cells give paths from the repository root.

## Model

| member | source | states |
|---|---|---|
| ParserUtil.ParseIndex | src/main/java/seedu/clinkedin/logic/parser/ParserUtil.java:39-45 | Succeeds exactly when the trimmed text is ASCII digits whose value is between 1 and 2^31-1. The index is then that value minus one. Otherwise the error is `MESSAGE_INVALID_INDEX`. |
| ParserUtil.ParseIndexOfDecimal | src/main/java/seedu/clinkedin/logic/parser/ParserUtil.java:39-45 | Any n in 1..2^31-1, written in decimal with any surrounding whitespace, parses to the index of one-based position n. |
| ParserUtil.ParseName | src/main/java/seedu/clinkedin/logic/parser/ParserUtil.java:53-60 | Succeeds exactly when the trimmed text is a valid name, and the name is then the trimmed text. Otherwise the error is the `Name` constraints message. |
| ParserUtil.ParsePhone | src/main/java/seedu/clinkedin/logic/parser/ParserUtil.java:68-75 | Succeeds exactly when the trimmed text is a valid phone, and the phone is then the trimmed text. Otherwise the error is the `Phone` constraints message. |
| ParserUtil.ParseAddress | src/main/java/seedu/clinkedin/logic/parser/ParserUtil.java:83-90 | Succeeds exactly when the trimmed text is a valid address, and the address is then the trimmed text. Otherwise the error is the `Address` constraints message. |
| ParserUtil.ParseEmail | src/main/java/seedu/clinkedin/logic/parser/ParserUtil.java:98-105 | Succeeds exactly when the trimmed text is a valid e-mail, and the e-mail is then the trimmed text. Otherwise the error is the `Email` constraints message. |
| ParserUtil.ParseStatus | src/main/java/seedu/clinkedin/logic/parser/ParserUtil.java:131-138 | Succeeds exactly when the trimmed text is a valid status, and the status is then the trimmed text. Otherwise the error is the `Status` constraints message. |
| ParserUtil.ParseNote | src/main/java/seedu/clinkedin/logic/parser/ParserUtil.java:146-149 | Always succeeds, and the note is the trimmed text. |
| ParserUtil.ParsedValuesReparse | src/main/java/seedu/clinkedin/logic/parser/ParserUtil.java:53-149 | Each of the six scalar parsers gives the same result on the raw text as on its trimmed form. Parsing the string of a parsed value again gives the same value. |
| ParserUtil.TagOf | src/main/java/seedu/clinkedin/logic/parser/ParserUtil.java:116-121 | One iteration of the tag loop. It succeeds exactly when the trimmed text is a valid tag name, giving the tag with that name. Otherwise the error is the `Tag` constraints message. |
| ParserUtil.ListOfElementwise | src/main/java/seedu/clinkedin/logic/parser/ParserUtil.java:113-123 | The first-failure loop over any parse function succeeds exactly when every string parses. It then holds every parsed value, in order. Otherwise it fails with the error of some string that does not parse. |
| ParserUtil.TagListOfElementwise | src/main/java/seedu/clinkedin/logic/parser/ParserUtil.java:113-123 | The tag list succeeds exactly when every trimmed string is a valid tag name. The list then holds one tag per string, in order, each named by the trimmed string. Otherwise the error is the `Tag` constraints message. |
| ParserUtil.ParseTagList | src/main/java/seedu/clinkedin/logic/parser/ParserUtil.java:113-123 | The loop returns exactly `TagListOf`, including the first-failure error. |
| ParserUtil.TagsOfSucceedsIff | src/main/java/seedu/clinkedin/logic/parser/ParserUtil.java:202-213 | Building the tag-type map succeeds exactly when every prefix's list holds only valid tags. This includes the lists that are empty and skipped. |
| ParserUtil.TagsOfByPrefix | src/main/java/seedu/clinkedin/logic/parser/ParserUtil.java:202-213 | Suppose distinct prefixes register distinct tag types. Then the built map has unique keys, and they are exactly the tag types of the prefixes with a non-empty list. Each such prefix's tag type maps to the parsed list, and each prefix with an empty list is absent. |
| ParserUtil.TagsOfFailsAt | src/main/java/seedu/clinkedin/logic/parser/ParserUtil.java:202-213 | A single prefix list with an invalid tag makes the whole tag-type map fail with the `Tag` constraints message. |
| ParserUtil.ParseTags | src/main/java/seedu/clinkedin/logic/parser/ParserUtil.java:202-213 | The loop succeeds exactly when `TagsOf` does. It then gives a new `TagTypeMap`, shared with no existing object, whose entries are `TagsOf`'s. Otherwise it gives `TagsOf`'s error. |
| Tags.Put | src/main/java/seedu/clinkedin/logic/parser/ParserUtil.java:208 | `HashMap.put`: the key is then present with the new value, every other key keeps its value, and unique keys stay unique. |
| Tags.PutAbsent | src/main/java/seedu/clinkedin/storage/JsonAdaptedPerson.java:100 | Putting a key that is absent appends one entry, at the end of the model's insertion order (the program's `HashMap` order may differ). |
| ParserUtil.ParsePrefix | src/main/java/seedu/clinkedin/logic/parser/ParserUtil.java:221-228 | Succeeds exactly when the trimmed name is a valid prefix name, and the prefix is then the trimmed name followed by "/". Otherwise the error is the `Prefix` constraints message. |
| ParserUtil.ParseTagType | src/main/java/seedu/clinkedin/logic/parser/ParserUtil.java:236-244 | The tag type is checked before the prefix. It succeeds exactly when both are valid, giving the trimmed type name and the parsed prefix. Each error case names the check that failed first. |
| ParserUtil.ParseTagTypeWithPrefix | src/main/java/seedu/clinkedin/logic/parser/ParserUtil.java:252-259 | Succeeds exactly when the trimmed type name is valid, keeping the given prefix unchanged. Otherwise the error is the `TagType` constraints message. |
| ParserUtil.ParseHyphen | src/main/java/seedu/clinkedin/logic/parser/ParserUtil.java:267-275 | Succeeds exactly when the text holds a hyphen. The result is the trimmed text before the first hyphen and the trimmed rest. Otherwise the error is the missing-hyphen message. |
| ParserUtil.SplitOfJoined | src/main/java/seedu/clinkedin/logic/parser/ParserUtil.java:268 | `split("-", 2)` of `before + "-" + after`, where `before` has no hyphen, gives back `before` and `after`. |
| ParserUtil.ParseEach | src/main/java/seedu/clinkedin/logic/parser/ParserUtil.java:154-161 | The loop shared by the six set parsers. It succeeds exactly when every string parses, and gives the set of the parsed values. Otherwise it fails with the error of a string that does not parse. |
| ParserUtil.ParseNames | src/main/java/seedu/clinkedin/logic/parser/ParserUtil.java:154-161 | Succeeds exactly when every trimmed string is a valid name, giving the set of those names. Otherwise the error is the `Name` constraints message. |
| ParserUtil.ParsePhones | src/main/java/seedu/clinkedin/logic/parser/ParserUtil.java:166-173 | Succeeds exactly when every trimmed string is a valid phone, giving the set of those phones. Otherwise the error is the `Phone` constraints message. |
| ParserUtil.ParseEmails | src/main/java/seedu/clinkedin/logic/parser/ParserUtil.java:178-185 | Succeeds exactly when every trimmed string is a valid e-mail, giving the set of those e-mails. Otherwise the error is the `Email` constraints message. |
| ParserUtil.ParseAddresses | src/main/java/seedu/clinkedin/logic/parser/ParserUtil.java:190-197 | Succeeds exactly when every trimmed string is a valid address, giving the set of those addresses. Otherwise the error is the `Address` constraints message. |
| ParserUtil.ParseStatuses | src/main/java/seedu/clinkedin/logic/parser/ParserUtil.java:280-287 | Succeeds exactly when every trimmed string is a valid status, giving the set of those statuses. Otherwise the error is the `Status` constraints message. |
| ParserUtil.ParseNotes | src/main/java/seedu/clinkedin/logic/parser/ParserUtil.java:292-299 | Always succeeds, with the set of the trimmed notes. |
| Persons.Person.Basic | src/main/java/seedu/clinkedin/model/person/Person.java:41-44 | Every field is stored as given. The note is empty, the rating is "0", there are no links, and the tag-type map is shared, not copied. |
| Persons.Person.WithNote | src/main/java/seedu/clinkedin/model/person/Person.java:49-52 | The given fields, note and links are stored, and the rating is "0". |
| Persons.Person.WithRating | src/main/java/seedu/clinkedin/model/person/Person.java:57-60 | The given fields and rating are stored. The note is empty and there are no links. |
| Persons.Person.constructor | src/main/java/seedu/clinkedin/model/person/Person.java:65-77 | All nine fields are stored as given. |
| Persons.Person.IsSamePerson | src/main/java/seedu/clinkedin/model/person/Person.java:130-137 | Holds exactly when the other person exists and has an equal name. |
| Persons.Person.Equals | src/main/java/seedu/clinkedin/model/person/Person.java:144-163 | Holds exactly when the other object is a `Person` with equal name, phone, e-mail, address, tag-type map contents, status, note, rating and links. Equal persons are the same person. |
| Persons.Person.GetDetailsAsArray | src/main/java/seedu/clinkedin/model/person/Person.java:177-208 | The rows are the person's detail block, as `IsDetailsBlock` defines it. |
| Persons.DetailsBlockLayout | src/main/java/seedu/clinkedin/model/person/Person.java:177-208 | A detail block has 9 + (number of tag types) rows. They are the six labelled scalar rows, one "Tag:" row per tag type in map order, the Rating row, and the Links row holding every link's URL once. The block ends with one empty row, and every earlier row is non-empty. |
| Persons.LinksRow | src/main/java/seedu/clinkedin/model/person/Person.java:198-205 | The row is "Links" followed by one cell per link, and its cells are exactly the links' URLs. |
| Persons.Person.DeleteTagType | src/main/java/seedu/clinkedin/model/person/Person.java:249-253 | The tag type is removed from the shared map. A tag type that is absent leaves the map unchanged. |
| Persons.Person.SetTagTypeMap | src/main/java/seedu/clinkedin/model/person/Person.java:258-260 | The person's map object now holds the replacement's entries. |
| Persons.SetTagTypeMapOfShared | src/main/java/seedu/clinkedin/model/person/Person.java:258-260 | Replacing the map through one person changes the tags of every person sharing that map object, and nothing else about them. |
| Storage.FromJsonFields | src/main/java/seedu/clinkedin/storage/JsonAdaptedPerson.java:45-58 | The fields are kept as read. An absent tags key gives no tag groups. |
| Storage.FromPerson | src/main/java/seedu/clinkedin/storage/JsonAdaptedPerson.java:63-79 | The six text fields are copied. There is one group per tag type, in map order, made of the type's name and then its tags. The result is `Serialise` of the person's contents. |
| Storage.DecodeTagList | src/main/java/seedu/clinkedin/storage/JsonAdaptedPerson.java:93-97 | Succeeds exactly when every stored tag name is valid, giving the tags in order. |
| Storage.DecodeGroup | src/main/java/seedu/clinkedin/storage/JsonAdaptedPerson.java:89-100 | An empty group fails with an index error. Otherwise the group succeeds exactly when every name in it is valid. Its type is named by the first element, with the prefix registered for that name, and its tags are the rest. |
| Storage.ReadGroup | src/main/java/seedu/clinkedin/storage/JsonAdaptedPerson.java:89-100 | The loop over one group returns exactly `DecodeGroup`. |
| Storage.DecodePersonTags | src/main/java/seedu/clinkedin/storage/JsonAdaptedPerson.java:87-101 | The loop over all groups returns exactly `DecodeGroups`. |
| Storage.DecodeGroupsFailsFirst | src/main/java/seedu/clinkedin/storage/JsonAdaptedPerson.java:89-101 | Once a prefix of the groups fails, the whole decoding fails with that same error. |
| Storage.Decode | src/main/java/seedu/clinkedin/storage/JsonAdaptedPerson.java:86-152 | A tag-group failure is reported before any field failure. On success, every field equals the stored text. The tags are the decoded groups, the rating is "0" and there are no links. |
| Storage.FirstFailureIsFirst | src/main/java/seedu/clinkedin/storage/JsonAdaptedPerson.java:103-149 | The chained checks pass exactly when no check fails. Otherwise the reported failure is the first one in field order. |
| Storage.DecodeReportsFirstFieldFailure | src/main/java/seedu/clinkedin/storage/JsonAdaptedPerson.java:103-149 | The checks run in the order name, phone, e-mail, address, status, note, each checking "missing" before "invalid". Decoding succeeds exactly when all pass, and otherwise reports the first failure. |
| Storage.ToModelType | src/main/java/seedu/clinkedin/storage/JsonAdaptedPerson.java:86-152 | Succeeds exactly when `Decode` does, with the same error. On success it returns a new `Person` with a new map, whose contents are `Decode`'s. |
| Storage.DecodeTagGroups | src/main/java/seedu/clinkedin/storage/JsonAdaptedPerson.java:68-100 | Tag groups written for a map with unique keys, valid names and registered prefixes decode back to that same map. |
| Storage.DecodeSerialise | src/main/java/seedu/clinkedin/storage/JsonAdaptedPerson.java:63-152 | For a person with valid fields and storable tags, storing then loading gives the same person, except that the rating becomes "0" and the links are dropped. |
| Storage.TagGroupsOfDecode | src/main/java/seedu/clinkedin/storage/JsonAdaptedPerson.java:63-101 | Stored tag groups that decode, no two of them naming the same type, are written back as they were read. The group order is kept only because the model's map iterates in insertion order. |
| Storage.SerialiseDecode | src/main/java/seedu/clinkedin/storage/JsonAdaptedPerson.java:63-152 | A stored person that decodes, its tag groups naming distinct types, is written out again as it was stored. The group order is kept only because the model's map iterates in insertion order. |
| AddressBookParser.MatchBasicFormat | src/main/java/seedu/clinkedin/logic/parser/AddressBookParser.java:34 | `(\S+)(.*)` fails to match exactly when no split of the text fits the pattern. Otherwise the command word and the arguments concatenate back to the text, fit the pattern, and the word is the longest that fits. |
| AddressBookParser.MatchOfWordAndArguments | src/main/java/seedu/clinkedin/logic/parser/AddressBookParser.java:34 | A word with no whitespace, followed by arguments that start with whitespace and hold no line terminator, matches as exactly that word and those arguments. |
| AddressBookParser.ParseCommand | src/main/java/seedu/clinkedin/logic/parser/AddressBookParser.java:43-98 | The trimmed input is split by `MatchBasicFormat`, the greedy match of `(\S+)(.*)`. The input fails with the invalid-format error exactly when it does not match. It fails with the unknown-command error exactly when it matches with a word whose lower case is no command word. Otherwise it parses to the command whose word that lower case is, with the match's argument tail. `ParseCommandSelects`, `UnknownWordAt` and `BlankInputIsInvalidFormat` state which concrete lines take which path. |
| AddressBookParser.BlankInputIsInvalidFormat | src/main/java/seedu/clinkedin/logic/parser/AddressBookParser.java:44-47 | Blank input is rejected with the invalid-format error. |
| AddressBookParser.Dispatch | src/main/java/seedu/clinkedin/logic/parser/AddressBookParser.java:51-96 | A known word selects the one command whose word it is, passing the arguments to that command's parser unless the command takes none. Any other word is an unknown command. |
| AddressBookParser.DispatchOfCommandWord | src/main/java/seedu/clinkedin/logic/parser/AddressBookParser.java:51-93 | Every command's own word selects that command. |
| AddressBookParser.CommandWordInjective | src/main/java/seedu/clinkedin/logic/parser/AddressBookParser.java:51-93 | No two commands share a word, so the switch has no shadowed case. |
| AddressBookParser.ParseCommandSelects | src/main/java/seedu/clinkedin/logic/parser/AddressBookParser.java:43-98 | Consider a word that lowercases to a command word, then arguments that start with whitespace, end with a non-blank character, and hold no line terminator, with any whitespace before and after. The whole line parses to that command with those arguments. |
| AddressBookParser.ParseCommandDispatches | src/main/java/seedu/clinkedin/logic/parser/AddressBookParser.java:43-53 | Consider a word with no whitespace and a non-blank first and last character, then such arguments, with any whitespace before and after. The line reaches the switch with the word lower-cased and the arguments unchanged. |
| AddressBookParser.UnknownWordAt | src/main/java/seedu/clinkedin/logic/parser/AddressBookParser.java:95-96 | On such a line, a word whose lower case is no command's word gives the unknown-command error, whatever its case and the whitespace around it. |
| AddressBookParser.DispatchOfUnknownWord | src/main/java/seedu/clinkedin/logic/parser/AddressBookParser.java:95-96 | A word that is no command's word reaches the default branch and gives the unknown-command error. |
| AddressBookParser.RateIsUnknown | src/main/java/seedu/clinkedin/logic/parser/AddressBookParser.java:51-96 | "rate" has no case in the switch, so a rate command line, in any mixture of cases, is an unknown command. |
| AddressBookParser.ExportIsUnknown | src/main/java/seedu/clinkedin/logic/parser/AddressBookParser.java:51-96 | "export" has no case in the switch, so an export command line, in any mixture of cases, is an unknown command. |
| Commands.ToCsvFormat | src/main/java/seedu/clinkedin/logic/commands/ExportCommand.java:70-72 | The rows are every listed person's detail block, concatenated in list order. |
| Commands.AppendDetails | src/main/java/seedu/clinkedin/logic/commands/ExportCommand.java:71 | One step of the `flatMap`. Appending the k-th person's detail block to a flattening of the first k persons gives a flattening of the first k + 1. |
| Commands.IsCsvSnoc | src/main/java/seedu/clinkedin/logic/commands/ExportCommand.java:70-72 | Appending one person's detail block to a flattening of the earlier persons gives a flattening of all of them. |
| Commands.CsvSeparators | src/main/java/seedu/clinkedin/logic/commands/ExportCommand.java:70-72 | The flattened rows hold exactly one empty separator row per person. |
| Commands.CountEmptyOfBlock | src/main/java/seedu/clinkedin/model/person/Person.java:206 | A detail block holds exactly one empty row. |
| Commands.ExportCommand.constructor | src/main/java/seedu/clinkedin/logic/commands/ExportCommand.java:39-42 | Keeps the file path, and the command is not the window form. |
| Commands.ExportCommand.Window | src/main/java/seedu/clinkedin/logic/commands/ExportCommand.java:47-49 | The window form, with no path. |
| Commands.ExportCommand.Execute | src/main/java/seedu/clinkedin/logic/commands/ExportCommand.java:52-65 | The window form only asks for the export window and writes nothing. The path form hands the CSV rows of the listed persons to the writer. If the write succeeds, the result is the success message naming the path. If it fails, the error is the write-failure message. |

## Left out

File and process interaction:

- File I/O: the CSV writer (`exportToCsvFile`) and Jackson's reading and writing are not modelled. The write outcome is the `writeSucceeds` parameter of `Execute`, and the rows it would write are returned.
- JavaFX: `ObservableList` and `ObservableMap` are plain sequences. The `model` argument of `execute` is the list of filtered persons.
- Jackson annotations and JSON key names are not modelled. `JsonAdaptedPerson` is a datatype whose absent keys are `None`.

Collaborator classes that are not part of this model:

- The value-object classes and their patterns (`Name`, `Phone`, `Email`, `Address`, `Status`, `Tag`, `TagType`, `Prefix`) are not part of this model. Their validity checks are the uninterpreted predicates of `Rules`.
- Value-object equality is structural. Two `TagType`s are equal when both name and prefix are, and two `Tag`s, `Name`s or `Link`s when their strings are. `TagType.equals` and `Tag`'s normalisation are not part of this model. The design describes `TagType` equality by name, ignoring case, and tags as case-normalised. So the model does not capture these cases: `Map.put` in `TagsOf` and `DecodeGroups` replacing an entry whose type name differs only in case, and `DeleteTagType` removing such an entry.
- `Storage.TagGroupsOfDecode` and `Storage.SerialiseDecode` ask for type names that differ as strings. Under the equality by name the design describes, names that differ only in case would also merge. Their exact round trip also depends on group order, which survives only in the model's insertion-order map. The program reads the groups into a `HashMap` (JsonAdaptedPerson.java:87) and writes them back in hash order (JsonAdaptedPerson.java:68). So it promises the same groups, but not their order.
- `UniqueTagTypeMap.getTagType` and `getPrefixFromTagType` read a process-wide registry. They are the functions `Rules.tagTypeOf` and `Rules.prefixOf`, and the registry's own updates are not modelled.
- `UniqueTagList` is a plain sequence of tags. Its rejection of duplicate tags is not modelled.
- The tag-type map's hash iteration order, and the iteration order of the prefix map and the link set, are modelled as sequence order. `LinksRow` picks links in an arbitrary order.
- `StringUtil` is not part of this model. `isNonZeroUnsignedInteger` followed by `Integer.parseInt` is modelled as "ASCII digits whose value is between 1 and 2^31-1". `ParserUtil.ParseIndex` therefore rejects non-ASCII decimal digits, such as Arabic-Indic ones, that `Character.digit` in `Integer.parseInt` may accept.
- The sub-parsers (`AddCommandParser` and the rest) and the command classes are not part of this model. A parsed command records which parser receives which argument text.
- The fourteen command words in the switch are assumed from their command classes' names, since those classes are not part of this model: add, edit, delete, clear, find, note, list, exit, help, addtag, deletetag, createtagtype, deletetagtype, edittagtype. Only "export", which is not in the switch, is read from its class (ExportCommand.java).
- `toLowerCase` is modelled on ASCII letters only, as in a root-like default locale. Under a Turkish locale "LIST", "EXIT", "FIND" and "EDIT" lower-case to a dotless i, and would be unknown commands.
- `CommandResult` is a datatype. The order of its three flags (help, exit, export window) is assumed from the four-argument call at ExportCommand.java:55. The one-argument call at ExportCommand.java:64 is assumed to set all three flags false.
- `JsonAdaptedTag.toModelType` is assumed to check its name with `Tag.isValidTagName`. `Tag.toString` is assumed to be the name in square brackets, so the substring at JsonAdaptedPerson.java:90-91 gives back the stored name.
- `getDetailsAsArray` renders a tag list as its tag names, a rating as its value, and a link as its URL. The `toString` methods that do this are not part of this model.

Inconsistencies in the source:

- `Storage.ToModelType`: JsonAdaptedPerson.java:151 passes a `Note` as the seventh argument of `new Person(...)`. The only seven-argument constructor, at Person.java:57-60, takes a `Rating` in that place, so the call matches no constructor. It is modelled as the nine-argument constructor at Person.java:65-77, with the stored note, rating "0" and no links. Ratings and links therefore do not survive storage.
- `Commands.ExportCommand`: `ParserUtil.FileType`, imported at ExportCommand.java:13, does not exist in `ParserUtil`. The file-type argument and field are dropped. The file path is an `Option` because the window form never sets it; it prints as "null".
- `Persons.Person.DeleteTagType` and `Persons.Person.SetTagTypeMap` declare `TagTypeNotFoundException` but never throw it in the lines modelled. The exception is not modelled.

Checks and methods not modelled:

- `new Tag(t.getTagTypeName())` at JsonAdaptedPerson.java:70, and `new TagType(...)` at JsonAdaptedPerson.java:92, validate their argument. Those checks are not modelled. `Storage.DecodeSerialise` assumes names that pass them.
- `hashCode`, `toString`, `getDetailsAsString` and the simple getters of `Person` are not modelled. They carry no property beyond the fields.
- `requireNonNull` checks and `NullPointerException`s are not modelled. Dafny references in the model are non-null except the `other` argument of `IsSamePerson` and `Equals`.

Helpers split out of the source's methods, to keep each proof small:

- `Persons.LinksRow` is the links loop of `getDetailsAsArray`.
- `Storage.ReadGroup` and `Storage.DecodePersonTags` are the two loops at the head of `toModelType`.
- `ParserUtil.ParseEach` is the loop that the six set parsers share.
- `ParserUtil.TagOf` is one iteration of `parseTagList`'s loop. `ParserUtil.ListOf` is that loop's first-failure pattern, for any parse function.
- `Commands.AppendDetails` is one step of the `flatMap` in `toCsvFormat`.

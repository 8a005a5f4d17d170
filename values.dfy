/**
 * The value objects a person is made of (each wraps one string) and the
 * rules that decide which strings they accept.
 *
 * The validation patterns of `Name`, `Phone`, `Email`, `Address`, `Status`,
 * `Tag`, `TagType` and `Prefix`, and the process-wide prefix registry of
 * `UniqueTagTypeMap`, are not part of this model: they are the fields of a
 * `Rules` value that every operation takes as a parameter, so nothing below
 * depends on what they contain.
 */
module Values {

  datatype Name = Name(fullName: string)
  datatype Phone = Phone(value: string)
  datatype Email = Email(value: string)
  datatype Address = Address(value: string)
  datatype Status = Status(status: string)
  datatype Note = Note(value: string)
  datatype Rating = Rating(value: string)
  datatype Link = Link(url: string)
  datatype Tag = Tag(tagName: string)

  /** A command-line prefix such as "s/". */
  datatype Prefix = Prefix(prefix: string)

  /** A named category of tags and the prefix that introduces it. */
  datatype TagType = TagType(name: string, prefix: Prefix)

  /** A position in a list, stored zero-based. */
  datatype Index = Index(zeroBased: nat)

  /** `Index.fromOneBased`. */
  function FromOneBased(oneBased: nat): (r: Index)
    requires oneBased >= 1
    ensures r.zeroBased + 1 == oneBased
  {
    Index(oneBased - 1)
  }

  /** The validity predicates of the value objects and the prefix registry. */
  datatype Rules = Rules(
    validName: string -> bool,        // Name.isValidName
    validPhone: string -> bool,       // Phone.isValidPhone
    validEmail: string -> bool,       // Email.isValidEmail
    validAddress: string -> bool,     // Address.isValidAddress
    validStatus: string -> bool,      // Status.isValidStatus
    validTag: string -> bool,         // Tag.isValidTagName
    validTagType: string -> bool,     // TagType.isValidTagType
    validPrefixName: string -> bool,  // Prefix.isValidPrefixName
    tagTypeOf: Prefix -> TagType,     // UniqueTagTypeMap.getTagType
    prefixOf: string -> Prefix        // UniqueTagTypeMap.getPrefixFromTagType
  )
}

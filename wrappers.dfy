/**
 * Results and failures shared by the parsers, the storage adapter and the
 * export command. A Java method that returns a value or throws becomes a
 * function or method returning a `Result`.
 */
module Wrappers {

  datatype Option<+T> = None | Some(value: T)

  /** The value-object classes whose constraint message a failure can carry. */
  datatype ValueClass =
    | NameClass | PhoneClass | EmailClass | AddressClass | StatusClass
    | NoteClass | TagClass | TagTypeClass | PrefixClass

  /** `Class.getSimpleName()` of each value-object class. */
  function SimpleName(c: ValueClass): string
  {
    match c
    case NameClass => "Name"
    case PhoneClass => "Phone"
    case EmailClass => "Email"
    case AddressClass => "Address"
    case StatusClass => "Status"
    case NoteClass => "Note"
    case TagClass => "Tag"
    case TagTypeClass => "TagType"
    case PrefixClass => "Prefix"
  }

  /** What an exception thrown by the modelled code carries. */
  datatype Failure =
      /** A message whose text the modelled code spells out. */
    | Message(text: string)
      /** The `MESSAGE_CONSTRAINTS` constant of a value-object class. */
    | Constraints(of: ValueClass)
      /** `MESSAGE_INVALID_COMMAND_FORMAT` filled with the help command's usage. */
    | InvalidCommandFormat
      /** `MESSAGE_UNKNOWN_COMMAND`. */
    | UnknownCommand
      /** The unchecked exception of `List.get(0)` on an empty list. */
    | IndexOutOfBounds

  datatype Result<+T> = Ok(value: T) | Err(error: Failure)

  /** `String.format("Person's %s field is missing!", c.getSimpleName())`. */
  function MissingField(c: ValueClass): Failure
  {
    Message("Person's " + SimpleName(c) + " field is missing!")
  }
}

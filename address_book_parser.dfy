/**
 * `AddressBookParser.parseCommand`: splits the trimmed user input into a
 * command word and an argument tail with the pattern `(\S+)(.*)`, lower-cases
 * the word and picks one of fourteen commands. The commands that take
 * arguments hand the tail, unchanged, to their own parser, which is not
 * part of this model; the result records which parser receives which tail.
 */
module AddressBookParser {
  import opened Wrappers
  import opened JavaString

  datatype CommandKind =
    | Add | Edit | Delete | Clear | Find | Note | List | Exit | Help
    | AddTag | DeleteTag | CreateTagType | DeleteTagType | EditTagType

  /** Each command class's `COMMAND_WORD`. */
  function CommandWord(k: CommandKind): (w: string)
    ensures w != [] && forall i :: 0 <= i < |w| ==> 'a' <= w[i] <= 'z'
  {
    match k
    case Add => "add"
    case Edit => "edit"
    case Delete => "delete"
    case Clear => "clear"
    case Find => "find"
    case Note => "note"
    case List => "list"
    case Exit => "exit"
    case Help => "help"
    case AddTag => "addtag"
    case DeleteTag => "deletetag"
    case CreateTagType => "createtagtype"
    case DeleteTagType => "deletetagtype"
    case EditTagType => "edittagtype"
  }

  /** The commands built directly, whatever follows the command word. */
  predicate TakesNoArguments(k: CommandKind)
  {
    k == Clear || k == List || k == Exit || k == Help
  }

  datatype Command =
      /** A command built without looking at the arguments. */
    | Built(kind: CommandKind)
      /** The arguments handed to the command's own parser. */
    | Parsed(kind: CommandKind, arguments: string)

  /** The command `parseCommand` returns for a command word and argument tail. */
  function CommandFor(k: CommandKind, arguments: string): Command
  {
    if TakesNoArguments(k) then Built(k) else Parsed(k, arguments)
  }

  /** `\s` in a Java pattern: space, tab, newline, vertical tab, form feed, carriage return. */
  predicate IsRegexSpace(c: char)
  {
    c == ' ' || c == '\t' || c == '\n' || c == '\U{000B}' || c == '\U{000C}' || c == '\r'
  }

  /** The chars `.` does not match in a Java pattern without DOTALL. */
  predicate IsLineTerminator(c: char)
  {
    c == '\n' || c == '\r' || c == '\U{0085}' || c == '\U{2028}' || c == '\U{2029}'
  }

  /** Splitting after `k` chars matches `(\S+)(.*)`: a non-empty run of non-space chars, then no line terminator. */
  predicate SplitMatches(s: string, k: int)
  {
    1 <= k <= |s|
    && (forall i :: 0 <= i < k ==> !IsRegexSpace(s[i]))
    && (forall i :: k <= i < |s| ==> !IsLineTerminator(s[i]))
  }

  /** The length of the leading run of non-space chars. */
  function WordEnd(s: string): (r: nat)
    ensures r <= |s|
    ensures forall i :: 0 <= i < r ==> !IsRegexSpace(s[i])
    ensures r < |s| ==> IsRegexSpace(s[r])
  {
    if s == [] || IsRegexSpace(s[0]) then 0 else 1 + WordEnd(s[1..])
  }

  /**
   * `BASIC_COMMAND_FORMAT.matcher(s).matches()` and its two groups. The
   * greedy `\S+` takes the whole leading run of non-space chars; giving
   * chars back cannot help, as the tail would only grow.
   */
  function MatchBasicFormat(s: string): (r: Option<(string, string)>)
    ensures r.None? <==> forall k :: !SplitMatches(s, k)
    ensures r.Some? ==> r.value.0 + r.value.1 == s && SplitMatches(s, |r.value.0|)
    ensures r.Some? ==> forall k :: |r.value.0| < k ==> !SplitMatches(s, k)
  {
    var w := WordEnd(s);
    if w == 0 then None
    else if exists i :: w <= i < |s| && IsLineTerminator(s[i]) then None
    else
      assert s[..w] + s[w..] == s;
      assert SplitMatches(s, w);
      Some((s[..w], s[w..]))
  }

  /** The `switch` of `parseCommand`. */
  function Dispatch(commandWord: string, arguments: string): (r: Result<Command>)
    ensures r.Ok? ==> CommandWord(r.value.kind) == commandWord && r.value == CommandFor(r.value.kind, arguments)
    ensures r.Err? ==> r.error == UnknownCommand && forall k :: CommandWord(k) != commandWord
  {
    if commandWord == "add" then Ok(Parsed(Add, arguments))
    else if commandWord == "edit" then Ok(Parsed(Edit, arguments))
    else if commandWord == "delete" then Ok(Parsed(Delete, arguments))
    else if commandWord == "clear" then Ok(Built(Clear))
    else if commandWord == "find" then Ok(Parsed(Find, arguments))
    else if commandWord == "note" then Ok(Parsed(Note, arguments))
    else if commandWord == "list" then Ok(Built(List))
    else if commandWord == "exit" then Ok(Built(Exit))
    else if commandWord == "help" then Ok(Built(Help))
    else if commandWord == "addtag" then Ok(Parsed(AddTag, arguments))
    else if commandWord == "deletetag" then Ok(Parsed(DeleteTag, arguments))
    else if commandWord == "createtagtype" then Ok(Parsed(CreateTagType, arguments))
    else if commandWord == "deletetagtype" then Ok(Parsed(DeleteTagType, arguments))
    else if commandWord == "edittagtype" then Ok(Parsed(EditTagType, arguments))
    else Err(UnknownCommand)
  }

  /**
   * `parseCommand`: the trimmed input is split as `matches()` splits it; the
   * input has the wrong format exactly when it does not match, it names an
   * unknown command exactly when it matches with a word that lower-cases to
   * no command word, and otherwise it gives the command whose word that is,
   * with the argument tail of the match.
   */
  function ParseCommand(userInput: string): (r: Result<Command>)
    ensures r == Err(InvalidCommandFormat) <==> MatchBasicFormat(Trim(userInput)).None?
    ensures r == Err(UnknownCommand) <==>
      MatchBasicFormat(Trim(userInput)).Some?
      && forall k :: CommandWord(k) != ToLowerAscii(MatchBasicFormat(Trim(userInput)).value.0)
    ensures r.Ok? ==>
      MatchBasicFormat(Trim(userInput)).Some?
      && ToLowerAscii(MatchBasicFormat(Trim(userInput)).value.0) == CommandWord(r.value.kind)
      && r.value == CommandFor(r.value.kind, MatchBasicFormat(Trim(userInput)).value.1)
    ensures r.Err? ==> r.error == InvalidCommandFormat || r.error == UnknownCommand
  {
    var matcher := MatchBasicFormat(Trim(userInput));
    if matcher.None? then Err(InvalidCommandFormat)
    else
      var r := Dispatch(ToLowerAscii(matcher.value.0), matcher.value.1);
      assert r.Err? ==> r.error == UnknownCommand;
      r
  }

  /** Distinct commands have distinct words, so a word selects at most one command. */
  lemma CommandWordInjective(a: CommandKind, b: CommandKind)
    requires CommandWord(a) == CommandWord(b)
    ensures a == b
  {
  }

  /** Input that is empty or only trim chars has the wrong format. */
  lemma BlankInputIsInvalidFormat(userInput: string)
    requires forall i :: 0 <= i < |userInput| ==> IsTrimChar(userInput[i])
    ensures ParseCommand(userInput) == Err(InvalidCommandFormat)
  {
    assert Trim(userInput) == [];
  }

  /** A char whose ASCII lower case is a lower-case letter is a letter: never a space or a trim char. */
  lemma LetterOfLowered(c: char)
    requires 'a' <= LowerChar(c) <= 'z'
    ensures !IsRegexSpace(c) && !IsTrimChar(c) && !IsLineTerminator(c)
  {
  }

  /** The command word of a command selects that command. */
  lemma DispatchOfCommandWord(k: CommandKind, arguments: string)
    ensures Dispatch(CommandWord(k), arguments) == Ok(CommandFor(k, arguments))
  {
    var r := Dispatch(CommandWord(k), arguments);
    CommandWordInjective(r.value.kind, k);
  }

  /** A word without spaces followed by a tail that starts with a space and has no line break splits into the two. */
  lemma MatchOfWordAndArguments(word: string, arguments: string)
    requires word != [] && forall i :: 0 <= i < |word| ==> !IsRegexSpace(word[i])
    requires arguments != [] ==> IsRegexSpace(arguments[0])
    requires forall i :: 0 <= i < |arguments| ==> !IsLineTerminator(arguments[i])
    ensures MatchBasicFormat(word + arguments) == Some((word, arguments))
  {
    var s := word + arguments;
    WordEndOfWord(word, arguments);
    assert s[..|word|] == word && s[|word|..] == arguments;
  }

  lemma {:induction false} WordEndOfWord(word: string, arguments: string)
    requires forall i :: 0 <= i < |word| ==> !IsRegexSpace(word[i])
    requires arguments != [] ==> IsRegexSpace(arguments[0])
    ensures WordEnd(word + arguments) == |word|
  {
    if word != [] {
      assert (word + arguments)[1..] == word[1..] + arguments;
      WordEndOfWord(word[1..], arguments);
    } else {
      assert word + arguments == arguments;
    }
  }

  /**
   * A command line as the user may type it: trim chars, a word with no
   * space whose ends are no trim chars, an argument tail that starts with a
   * space, ends in no trim char and has no line break, then trim chars.
   */
  predicate IsCommandLine(pre: string, word: string, arguments: string, post: string)
  {
    (forall i :: 0 <= i < |pre| ==> IsTrimChar(pre[i]))
    && (forall i :: 0 <= i < |post| ==> IsTrimChar(post[i]))
    && word != []
    && (forall i :: 0 <= i < |word| ==> !IsRegexSpace(word[i]))
    && !IsTrimChar(word[0]) && !IsTrimChar(word[|word| - 1])
    && (arguments != [] ==> IsRegexSpace(arguments[0]) && !IsTrimChar(arguments[|arguments| - 1]))
    && (forall i :: 0 <= i < |arguments| ==> !IsLineTerminator(arguments[i]))
  }

  /** Such a line reaches the dispatch with its word lower-cased and its tail unchanged. */
  lemma ParseCommandDispatches(pre: string, word: string, arguments: string, post: string)
    requires IsCommandLine(pre, word, arguments, post)
    ensures ParseCommand(pre + word + arguments + post) == Dispatch(ToLowerAscii(word), arguments)
  {
    var s := word + arguments;
    assert pre + word + arguments + post == pre + s + post;
    assert s[0] == word[0];
    assert s[|s| - 1] == if arguments == [] then word[|word| - 1] else arguments[|arguments| - 1];
    TrimOfPadded(pre, s, post);
    MatchOfWordAndArguments(word, arguments);
  }

  /**
   * A command word in any mixture of cases, between any surrounding
   * whitespace, followed by an argument tail that starts with a space and
   * has no line break, selects that command and hands it the tail as it
   * is; clear, list, exit and help ignore the tail.
   */
  lemma ParseCommandSelects(pre: string, word: string, arguments: string, post: string, k: CommandKind)
    requires forall i :: 0 <= i < |pre| ==> IsTrimChar(pre[i])
    requires forall i :: 0 <= i < |post| ==> IsTrimChar(post[i])
    requires ToLowerAscii(word) == CommandWord(k)
    requires arguments != [] ==> IsRegexSpace(arguments[0]) && !IsTrimChar(arguments[|arguments| - 1])
    requires forall i :: 0 <= i < |arguments| ==> !IsLineTerminator(arguments[i])
    ensures ParseCommand(pre + word + arguments + post) == Ok(CommandFor(k, arguments))
  {
    LettersOfLowered(word, CommandWord(k));
    ParseCommandDispatches(pre, word, arguments, post);
    DispatchOfCommandWord(k, arguments);
  }

  /** A word whose lower case is no command word, on a well-formed line, fails as an unknown command. */
  lemma UnknownWordAt(pre: string, word: string, arguments: string, post: string)
    requires IsCommandLine(pre, word, arguments, post)
    requires forall k :: CommandWord(k) != ToLowerAscii(word)
    ensures ParseCommand(pre + word + arguments + post) == Err(UnknownCommand)
  {
    ParseCommandDispatches(pre, word, arguments, post);
    DispatchOfUnknownWord(ToLowerAscii(word), arguments);
  }

  lemma DispatchOfUnknownWord(word: string, arguments: string)
    requires forall k :: CommandWord(k) != word
    ensures Dispatch(word, arguments) == Err(UnknownCommand)
  {
  }

  /** "rate", in any mixture of cases, is not among the dispatched words, although a rating command exists. */
  lemma RateIsUnknown(pre: string, word: string, arguments: string, post: string)
    requires forall i :: 0 <= i < |pre| ==> IsTrimChar(pre[i])
    requires forall i :: 0 <= i < |post| ==> IsTrimChar(post[i])
    requires ToLowerAscii(word) == "rate"
    requires arguments != [] ==> IsRegexSpace(arguments[0]) && !IsTrimChar(arguments[|arguments| - 1])
    requires forall i :: 0 <= i < |arguments| ==> !IsLineTerminator(arguments[i])
    ensures ParseCommand(pre + word + arguments + post) == Err(UnknownCommand)
  {
    LettersOfLowered(word, "rate");
    assert ToLowerAscii(word) == ['r', 'a', 't', 'e'];
    assert Dispatch(ToLowerAscii(word), arguments).Err?;
    UnknownWordAt(pre, word, arguments, post);
  }

  /** "export", in any mixture of cases, is not among the dispatched words, although `ExportCommand` declares it as its word. */
  lemma ExportIsUnknown(pre: string, word: string, arguments: string, post: string)
    requires forall i :: 0 <= i < |pre| ==> IsTrimChar(pre[i])
    requires forall i :: 0 <= i < |post| ==> IsTrimChar(post[i])
    requires ToLowerAscii(word) == "export"
    requires arguments != [] ==> IsRegexSpace(arguments[0]) && !IsTrimChar(arguments[|arguments| - 1])
    requires forall i :: 0 <= i < |arguments| ==> !IsLineTerminator(arguments[i])
    ensures ParseCommand(pre + word + arguments + post) == Err(UnknownCommand)
  {
    LettersOfLowered(word, "export");
    assert ToLowerAscii(word) == ['e', 'x', 'p', 'o', 'r', 't'];
    assert Dispatch(ToLowerAscii(word), arguments).Err?;
    UnknownWordAt(pre, word, arguments, post);
  }

  /** A word whose lower case is a non-empty run of lower-case letters has no space, no trim char and no line break. */
  lemma LettersOfLowered(word: string, lowered: string)
    requires ToLowerAscii(word) == lowered
    requires lowered != [] && forall i :: 0 <= i < |lowered| ==> 'a' <= lowered[i] <= 'z'
    ensures word != []
    ensures forall i :: 0 <= i < |word| ==> !IsRegexSpace(word[i]) && !IsTrimChar(word[i])
  {
    forall i | 0 <= i < |word|
      ensures !IsRegexSpace(word[i]) && !IsTrimChar(word[i])
    {
      assert ToLowerAscii(word)[i] == LowerChar(word[i]);
      LetterOfLowered(word[i]);
    }
  }
}

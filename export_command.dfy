/**
 * `ExportCommand`: flattens the listed persons into rows for a CSV file,
 * or asks the UI to open the export window. The file write is not part of
 * this model: its outcome is a parameter, and the rows it would write are
 * returned.
 */
module Commands {
  import opened Wrappers
  import opened Persons

  const MessageWindow := "Opening Export Window..."
  const MessageWriteFailed := "Couldn't export file! Check file path and try again!"

  /** `String.format(MESSAGE_SUCCESS, filePath)`; an absent path is formatted as "null". */
  function MessageSuccess(filePath: Option<string>): string
  {
    "PersonList exported successfully in " + (if filePath.Some? then filePath.value else "null")
  }

  /** `CommandResult`: the feedback and the flags the UI acts on. */
  datatype CommandResult = CommandResult(feedbackToUser: string, showHelp: bool, exit: bool, showExport: bool)

  /** The contents of the listed persons, in list order. */
  function Contents(persons: seq<Person>): (ds: seq<PersonData>)
    reads set p | p in persons :: p.tagTypeMap
    ensures |ds| == |persons|
    ensures forall i :: 0 <= i < |persons| ==> ds[i] == persons[i].Data()
  {
    if persons == [] then []
    else Contents(persons[..|persons| - 1]) + [persons[|persons| - 1].Data()]
  }

  function CsvLength(ds: seq<PersonData>): nat
  {
    if ds == [] then 0 else CsvLength(ds[..|ds| - 1]) + 9 + |ds[|ds| - 1].tags|
  }

  /** `rows` is every person's detail block, one after the other, in order. */
  predicate IsCsv(ds: seq<PersonData>, rows: seq<seq<string>>)
  {
    if ds == [] then rows == []
    else
      var front := ds[..|ds| - 1];
      var n := CsvLength(front);
      n <= |rows| && IsCsv(front, rows[..n]) && IsDetailsBlock(ds[|ds| - 1], rows[n..])
  }

  /** Appending one more block to a flattening of some persons flattens one more person. */
  lemma IsCsvSnoc(ds: seq<PersonData>, rows: seq<seq<string>>, d: PersonData, block: seq<seq<string>>)
    requires IsCsv(ds, rows) && |rows| == CsvLength(ds)
    requires IsDetailsBlock(d, block)
    ensures IsCsv(ds + [d], rows + block)
    ensures |rows + block| == CsvLength(ds + [d])
  {
    DetailsBlockLayout(d, block);
    assert (ds + [d])[..|ds|] == ds;
    assert (rows + block)[..|rows|] == rows;
    assert (rows + block)[|rows|..] == block;
  }

  /** One step of the `flatMap` in `toCsvFormat`: the `k`-th person's detail block appended to the rows so far. */
  method AppendDetails(ghost ds: seq<PersonData>, ghost k: nat, rows: seq<seq<string>>, p: Person)
    returns (extended: seq<seq<string>>)
    requires k < |ds| && ds[k] == p.Data()
    requires IsCsv(ds[..k], rows) && |rows| == CsvLength(ds[..k])
    ensures IsCsv(ds[..k + 1], extended) && |extended| == CsvLength(ds[..k + 1])
  {
    var block := p.GetDetailsAsArray();
    IsCsvSnoc(ds[..k], rows, ds[k], block);
    assert ds[..k + 1] == ds[..k] + [ds[k]];
    extended := rows + block;
  }

  /** `toCsvFormat`: the detail blocks of all persons, concatenated in list order. */
  method ToCsvFormat(personList: seq<Person>) returns (rows: seq<seq<string>>)
    ensures IsCsv(Contents(personList), rows)
    ensures |rows| == CsvLength(Contents(personList))
  {
    ghost var ds := Contents(personList);
    rows := [];
    var k := 0;
    while k < |personList|
      invariant 0 <= k <= |personList|
      invariant IsCsv(ds[..k], rows) && |rows| == CsvLength(ds[..k])
    {
      rows := AppendDetails(ds, k, rows, personList[k]);
      k := k + 1;
    }
    assert ds[..k] == ds;
  }

  /** The number of empty rows. */
  function CountEmpty(rows: seq<seq<string>>): nat
  {
    if rows == [] then 0
    else CountEmpty(rows[..|rows| - 1]) + (if rows[|rows| - 1] == [] then 1 else 0)
  }

  lemma {:induction false} CountEmptyAppend(a: seq<seq<string>>, b: seq<seq<string>>)
    ensures CountEmpty(a + b) == CountEmpty(a) + CountEmpty(b)
  {
    if b == [] {
      assert a + b == a;
    } else {
      var front := b[..|b| - 1];
      assert (a + b)[..|a + b| - 1] == a + front;
      CountEmptyAppend(a, front);
    }
  }

  lemma {:induction false} CountEmptyNone(rows: seq<seq<string>>)
    requires forall k :: 0 <= k < |rows| ==> rows[k] != []
    ensures CountEmpty(rows) == 0
  {
    if rows != [] {
      CountEmptyNone(rows[..|rows| - 1]);
    }
  }

  /** A detail block holds exactly one empty row. */
  lemma CountEmptyOfBlock(d: PersonData, block: seq<seq<string>>)
    requires IsDetailsBlock(d, block)
    ensures CountEmpty(block) == 1
  {
    DetailsBlockLayout(d, block);
    CountEmptyNone(block[..|block| - 1]);
  }

  /** The flattened rows hold exactly one empty separator row per person. */
  lemma {:induction false} CsvSeparators(ds: seq<PersonData>, rows: seq<seq<string>>)
    requires IsCsv(ds, rows)
    ensures CountEmpty(rows) == |ds|
  {
    if ds != [] {
      var front := ds[..|ds| - 1];
      var n := CsvLength(front);
      CsvSeparators(front, rows[..n]);
      CountEmptyOfBlock(ds[|ds| - 1], rows[n..]);
      assert rows == rows[..n] + rows[n..];
      CountEmptyAppend(rows[..n], rows[n..]);
    }
  }

  /** `ExportCommand`: with a file path, or alone to open the export window. */
  class ExportCommand {
    /** Absent for the window form, where it is never read. */
    const filePath: Option<string>
    const onlyCommand: bool

    /** `new ExportCommand(filePath, fileType)`. */
    constructor (filePath: string)
      ensures this.filePath == Some(filePath) && !onlyCommand
    {
      this.filePath := Some(filePath);
      this.onlyCommand := false;
    }

    /** `new ExportCommand()`. */
    constructor Window()
      ensures filePath == None && onlyCommand
    {
      this.filePath := None;
      this.onlyCommand := true;
    }

    /**
     * `execute`: the window form only asks for the export window; the path
     * form flattens the persons and hands the rows to the file writer, whose
     * outcome is `writeSucceeds`.
     */
    method Execute(personList: seq<Person>, writeSucceeds: bool)
      returns (r: Result<CommandResult>, written: Option<seq<seq<string>>>)
      ensures onlyCommand ==> r == Ok(CommandResult(MessageWindow, false, false, true)) && written == None
      ensures !onlyCommand ==> written.Some? && IsCsv(Contents(personList), written.value)
      ensures !onlyCommand && writeSucceeds ==> r == Ok(CommandResult(MessageSuccess(filePath), false, false, false))
      ensures !onlyCommand && !writeSucceeds ==> r == Err(Message(MessageWriteFailed))
    {
      if onlyCommand {
        return Ok(CommandResult(MessageWindow, false, false, true)), None;
      }
      var data := ToCsvFormat(personList);
      written := Some(data);
      if !writeSucceeds {
        return Err(Message(MessageWriteFailed)), written;
      }
      r := Ok(CommandResult(MessageSuccess(filePath), false, false, false));
    }
  }
}

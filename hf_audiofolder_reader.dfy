/**
 * The Hugging Face AudioFolder speech reader: each input is a CSV file with the columns
 * "file_name" and "transcription", and every data row becomes a speech record.
 */
module HfAudioFolderReader {
  import opened Wrappers
  import opened Text
  import opened Paths
  import opened Records
  import opened ReaderSupport

  /** The header line: the two column names separated by a comma. */
  const ExpectedHeader: string := "file_name" + "," + "transcription"
  const FileNameColumn: nat := 0
  const TranscriptionColumn: nat := 1

  /**
   * What `csv.reader` (the default Excel dialect, with quoting) makes of the text after the
   * header: one list of fields per row, `[]` for a blank line.
   */
  type CsvParse = string -> seq<seq<string>>

  lemma HeaderShape()
    ensures ExpectedHeader == "file_name,transcription"
  {
  }

  /** A file that starts with the header line passes the header test, whatever ends that line. */
  lemma HeaderAccepted(content: string, lineEnd: string, rest: string)
    requires lineEnd == "\n" || lineEnd == "\r\n"
    requires content == ExpectedHeader + lineEnd + rest
    ensures Strip(FirstLine(content)) == ExpectedHeader
  {
    HeaderShape();
    var h := ExpectedHeader;
    assert NoBreaks("file_name") && NoBreaks(",") && NoBreaks("transcription");
    NoBreaksAppend("file_name", ",");
    NoBreaksAppend("file_name" + ",", "transcription");
    FirstLineOf(h, lineEnd, rest);
    assert h[0] == 'f' && h[|h| - 1] == 'n';
    StripPadding("", h, lineEnd);
    assert "" + h + lineEnd == h + lineEnd;
  }

  function HeaderError(header: string): string {
    "Expected header: " + ExpectedHeader + "\nSeen header: " + header
  }

  /** The record of one data row: the audio file named in the row, next to the input file. */
  function RowRecord(basedir: string, fields: seq<string>): Record
    requires |fields| > FileNameColumn
  {
    FromSource(Speech, Some(AudioPath(basedir, fields)), None, Column(fields, TranscriptionColumn))
  }

  /** `os.path.join(os.path.dirname(input), row["file_name"])`. */
  function AudioPath(basedir: string, fields: seq<string>): string
    requires |fields| > FileNameColumn
  {
    JoinPath(basedir, fields[FileNameColumn])
  }

  /** A row's record is a speech record for the file it names, annotated with its transcription and without metadata. */
  lemma RowRecordShape(basedir: string, fields: seq<string>)
    requires |fields| > FileNameColumn
    ensures var r := RowRecord(basedir, fields);
      && r.kind == Speech && r.source == Some(JoinPath(basedir, fields[FileNameColumn]))
      && r.annotation == Column(fields, TranscriptionColumn) && r.metadata == None
  {
  }

  /** The rows `csv.DictReader` hands out: the blank ones are skipped. */
  function DataRows(rows: seq<seq<string>>): (r: seq<seq<string>>)
    ensures forall k :: 0 <= k < |r| ==> |r[k]| > 0
    ensures |r| <= |rows|
  {
    if |rows| == 0 then []
    else if rows[0] == [] then DataRows(rows[1..])
    else [rows[0]] + DataRows(rows[1..])
  }

  /** `DataRows` keeps exactly the non-blank rows: a row is among the data rows iff it is a non-blank input row. */
  lemma {:induction false} DataRowsMembers(rows: seq<seq<string>>)
    ensures forall row :: row in DataRows(rows) <==> row in rows && row != []
  {
    if |rows| > 0 {
      DataRowsMembers(rows[1..]);
      assert rows == [rows[0]] + rows[1..];
    }
  }

  /** `DataRows` keeps the order of the file: a further row adds itself at the end unless it is blank. */
  lemma {:induction false} DataRowsAppend(rows: seq<seq<string>>, row: seq<string>)
    ensures DataRows(rows + [row]) == DataRows(rows) + (if row == [] then [] else [row])
  {
    if |rows| == 0 {
      assert rows + [row] == [row];
      assert [row][1..] == [];
    } else {
      assert (rows + [row])[0] == rows[0];
      assert (rows + [row])[1..] == rows[1..] + [row];
      DataRowsAppend(rows[1..], row);
    }
  }

  /**
   * The values `read()` yields for the rows `csv.reader` produced: blank rows are skipped, and
   * every other row yields its record, after a `None` when its audio file is missing.
   */
  function RowsYields(fs: FileSystem, basedir: string, rows: seq<seq<string>>): seq<Option<Record>> {
    if |rows| == 0 then []
    else if rows[0] == [] then RowsYields(fs, basedir, rows[1..])
    else RowYields(fs, basedir, rows[0]) + RowsYields(fs, basedir, rows[1..])
  }

  function RowYields(fs: FileSystem, basedir: string, fields: seq<string>): seq<Option<Record>>
    requires |fields| > FileNameColumn
  {
    Emit(fs.Exists(AudioPath(basedir, fields)), RowRecord(basedir, fields))
  }

  /** The record of each row, in order. */
  function RowRecords(basedir: string, rows: seq<seq<string>>): seq<Record>
    requires forall k :: 0 <= k < |rows| ==> |rows[k]| > 0
  {
    seq(|rows|, k requires 0 <= k < |rows| => RowRecord(basedir, rows[k]))
  }

  lemma RowRecordsCons(basedir: string, rows: seq<seq<string>>)
    requires |rows| > 0 && forall k :: 0 <= k < |rows| ==> |rows[k]| > 0
    ensures RowRecords(basedir, rows) == [RowRecord(basedir, rows[0])] + RowRecords(basedir, rows[1..])
  {
    var rest := RowRecords(basedir, rows[1..]);
    forall k | 0 <= k < |rest| ensures rest[k] == RowRecord(basedir, rows[k + 1]) {
      assert rows[1..][k] == rows[k + 1];
    }
  }

  /** One record per non-blank row, in file order, and nothing else. */
  lemma {:induction false} RowsYieldRecords(fs: FileSystem, basedir: string, rows: seq<seq<string>>)
    ensures RecordsOf(RowsYields(fs, basedir, rows)) == RowRecords(basedir, DataRows(rows))
  {
    if |rows| > 0 {
      RowsYieldRecords(fs, basedir, rows[1..]);
      if rows[0] != [] {
        var r := RowRecord(basedir, rows[0]);
        var e := RowYields(fs, basedir, rows[0]);
        var rest := RowsYields(fs, basedir, rows[1..]);
        assert RowsYields(fs, basedir, rows) == e + rest;
        RecordsOfAppend(e, rest);
        RecordsOfEmit(fs.Exists(AudioPath(basedir, rows[0])), r);
        var data := DataRows(rows);
        assert data == [rows[0]] + DataRows(rows[1..]);
        assert data[1..] == DataRows(rows[1..]);
        RowRecordsCons(basedir, data);
      }
    }
  }

  lemma RowsYieldsUnfold(fs: FileSystem, basedir: string, rows: seq<seq<string>>, i: int)
    requires 0 <= i < |rows|
    ensures RowsYields(fs, basedir, rows[i..]) ==
      if rows[i] == [] then RowsYields(fs, basedir, rows[i + 1..])
      else RowYields(fs, basedir, rows[i]) + RowsYields(fs, basedir, rows[i + 1..])
  {
    assert rows[i..][0] == rows[i];
    assert rows[i..][1..] == rows[i + 1..];
  }

  /** What `read()` yields for the input file `input`. */
  function ReadFile(fs: FileSystem, parse: CsvParse, input: string): Outcome {
    match ReadRaw(fs, input)
    case Err(e) => Outcome([], Some(e))
    case Ok(content) =>
      var line := FirstLine(content);
      if Strip(line) == ExpectedHeader then
        Outcome(RowsYields(fs, Dirname(input), parse(content[|line|..])), None)
      else Outcome([], Some(HeaderError(Strip(line))))
  }

  /** One step of the loop of `read()`: `added` is what row `i` yields. */
  lemma RowsYieldsStep(fs: FileSystem, basedir: string, rows: seq<seq<string>>, i: nat, yielded: seq<Option<Record>>, added: seq<Option<Record>>)
    requires i < |rows|
    requires RowsYields(fs, basedir, rows) == yielded + RowsYields(fs, basedir, rows[i..])
    requires added == if rows[i] == [] then [] else RowYields(fs, basedir, rows[i])
    ensures RowsYields(fs, basedir, rows) == (yielded + added) + RowsYields(fs, basedir, rows[i + 1..])
  {
    RowsYieldsUnfold(fs, basedir, rows, i);
    var rest := RowsYields(fs, basedir, rows[i + 1..]);
    if rows[i] == [] {
      assert added + rest == rest;
    }
    AppendStep(RowsYields(fs, basedir, rows), yielded, RowsYields(fs, basedir, rows[i..]), added, rest);
  }

  /** The loop of `read()` over the rows of one file. */
  method ReadRowsOf(fs: FileSystem, basedir: string, rows: seq<seq<string>>) returns (yielded: seq<Option<Record>>)
    ensures yielded == RowsYields(fs, basedir, rows)
  {
    yielded := [];
    var i := 0;
    while i < |rows|
      invariant 0 <= i <= |rows|
      invariant RowsYields(fs, basedir, rows) == yielded + RowsYields(fs, basedir, rows[i..])
    {
      var added := [];
      if rows[i] != [] {
        added := RowYields(fs, basedir, rows[i]);
      }
      RowsYieldsStep(fs, basedir, rows, i, yielded, added);
      yielded := yielded + added;
      i := i + 1;
    }
    assert rows[i..] == [];
  }

  class HuggingFaceAudioFolderSpeechReader {
    /** The input files not read yet. */
    var inputs: seq<string>
    var currentInput: Option<string>

    constructor()
      ensures inputs == [] && currentInput == None
    {
      inputs := [];
      currentInput := None;
    }

    /** `initialize()`: `located` is what `locate_files` found; an empty result raises. */
    method Initialize(located: seq<string>) returns (error: Option<string>)
      modifies this
      ensures error.Some? <==> located == []
      ensures error == None ==> inputs == located
      ensures error.Some? ==> error == Some(NoInputs) && inputs == old(inputs)
      ensures currentInput == old(currentInput)
    {
      if located == [] {
        return Some(NoInputs);
      }
      inputs := located;
      error := None;
    }

    /** `read()`: takes the next input file, checks its header and yields the records of its rows. */
    method Read(fs: FileSystem, parse: CsvParse) returns (o: Outcome)
      modifies this
      ensures old(inputs) == [] ==> o == Outcome([], Some(EmptyPop)) && inputs == [] && currentInput == old(currentInput)
      ensures old(inputs) != [] ==>
        && inputs == old(inputs)[1..] && currentInput == Some(old(inputs)[0])
        && o == ReadFile(fs, parse, old(inputs)[0])
    {
      if inputs == [] {
        return Outcome([], Some(EmptyPop));
      }
      var input := inputs[0];
      inputs := inputs[1..];
      currentInput := Some(input);
      var content := ReadRaw(fs, input);
      if content.Err? {
        return Outcome([], Some(content.msg));
      }
      var line := FirstLine(content.value);
      var header := Strip(line);
      if header != ExpectedHeader {
        return Outcome([], Some(HeaderError(header)));
      }
      var rows := parse(content.value[|line|..]);
      var yielded := ReadRowsOf(fs, Dirname(input), rows);
      o := Outcome(yielded, None);
    }

    /** `has_finished()`: no input file is left. */
    predicate HasFinished()
      reads this
    {
      inputs == []
    }
  }
}

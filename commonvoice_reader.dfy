/**
 * The Common Voice speech reader: each input is a tab-separated file whose first line is the
 * Common Voice header, and every further row becomes a speech record with six metadata values.
 */
module CommonVoiceReader {
  import opened Wrappers
  import opened Text
  import opened Paths
  import opened Records
  import opened ReaderSupport

  const Delimiter: char := '\t'
  /**
   * The header line the reader expects, without its line end: the column names separated by
   * tabs. Older releases call the eighth column "accent".
   */
  const ExpectedHeader: string :=
    "client_id" + "\tpath" + "\tsentence" + "\tup_votes" + "\tdown_votes" + "\tage" + "\tgender" + "\taccents" + "\tlocale" + "\tsegment"
  const ExpectedHeaderOld: string :=
    "client_id" + "\tpath" + "\tsentence" + "\tup_votes" + "\tdown_votes" + "\tage" + "\tgender" + "\taccent" + "\tlocale" + "\tsegment"

  lemma HeadersAreLines()
    ensures NoBreaks(ExpectedHeader) && NoBreaks(ExpectedHeaderOld)
  {
    HeaderIsLine(ExpectedHeader);
    HeaderIsLine(ExpectedHeaderOld);
  }

  lemma HeaderIsLine(h: string)
    requires h == ExpectedHeader || h == ExpectedHeaderOld
    ensures NoBreaks(h)
  {
    var eighth := if h == ExpectedHeader then "\taccents" else "\taccent";
    var line := "client_id";
    assert NoBreaks(line);
    assert NoBreaks("\tpath");
    NoBreaksAppend(line, "\tpath");
    line := line + "\tpath";
    assert NoBreaks("\tsentence");
    NoBreaksAppend(line, "\tsentence");
    line := line + "\tsentence";
    assert NoBreaks("\tup_votes");
    NoBreaksAppend(line, "\tup_votes");
    line := line + "\tup_votes";
    assert NoBreaks("\tdown_votes");
    NoBreaksAppend(line, "\tdown_votes");
    line := line + "\tdown_votes";
    assert NoBreaks("\tage");
    NoBreaksAppend(line, "\tage");
    line := line + "\tage";
    assert NoBreaks("\tgender");
    NoBreaksAppend(line, "\tgender");
    line := line + "\tgender";
    assert NoBreaks(eighth);
    NoBreaksAppend(line, eighth);
    line := line + eighth;
    assert NoBreaks("\tlocale");
    NoBreaksAppend(line, "\tlocale");
    line := line + "\tlocale";
    assert NoBreaks("\tsegment");
    NoBreaksAppend(line, "\tsegment");
    line := line + "\tsegment";
    assert line == h;
  }

  const DefaultRelPath: string := "."

  /** Column positions shared by both headers. */
  const ClientIdColumn: nat := 0
  const PathColumn: nat := 1
  const SentenceColumn: nat := 2
  const UpVotesColumn: nat := 3
  const DownVotesColumn: nat := 4
  const AgeColumn: nat := 5
  const GenderColumn: nat := 6
  const LocaleColumn: nat := 8

  /** The header test accepts a file exactly when it starts with one of the headers and a line feed. */
  lemma HeaderAccepted(content: string, h: string)
    requires h == ExpectedHeader || h == ExpectedHeaderOld
    ensures FirstLine(content) == h + "\n" <==> StartsWith(content, h + "\n")
  {
    if StartsWith(content, h + "\n") {
      HeadersAreLines();
      assert content == h + "\n" + content[|h| + 1..];
      FirstLineOf(h, "\n", content[|h| + 1..]);
    }
  }

  function HeaderError(header: string): string {
    "Expected header: " + ExpectedHeader + " or " + ExpectedHeaderOld + "\nSeen header: " + header
  }

  /** `os.path.join` given `None` for the "path" column of a short row. */
  const PathMissing: string := "expected str, bytes or os.PathLike object, not NoneType"

  /** The metadata of one row: six columns under their own names. */
  function RowMetadata(fields: seq<string>): Metadata {
    map[
      "client_id" := AsValue(Column(fields, ClientIdColumn)),
      "up_votes" := AsValue(Column(fields, UpVotesColumn)),
      "down_votes" := AsValue(Column(fields, DownVotesColumn)),
      "age" := AsValue(Column(fields, AgeColumn)),
      "gender" := AsValue(Column(fields, GenderColumn)),
      "locale" := AsValue(Column(fields, LocaleColumn))]
  }

  /**
   * The metadata holds the six columns, each value the row's column of that name, or `None`
   * when the row is too short.
   */
  lemma RowMetadataValues(fields: seq<string>)
    ensures RowMetadata(fields).Keys == {"client_id", "up_votes", "down_votes", "age", "gender", "locale"}
    ensures var m := RowMetadata(fields);
      && m["client_id"] == AsValue(Column(fields, ClientIdColumn))
      && m["up_votes"] == AsValue(Column(fields, UpVotesColumn))
      && m["down_votes"] == AsValue(Column(fields, DownVotesColumn))
      && m["age"] == AsValue(Column(fields, AgeColumn))
      && m["gender"] == AsValue(Column(fields, GenderColumn))
      && m["locale"] == AsValue(Column(fields, LocaleColumn))
  {
  }

  /** One row of the file: its record, after a `None` when the audio file is missing. */
  function RowYields(fs: FileSystem, basedir: string, relPath: string, row: string): (r: Result<seq<Option<Record>>>)
    ensures r.Err? <==> |Split(row, Delimiter)| <= PathColumn
    ensures r.Err? ==> r.msg == PathMissing
  {
    var fields := Split(row, Delimiter);
    if |fields| <= PathColumn then Err(PathMissing)
    else
      var audio := JoinPath3(basedir, relPath, fields[PathColumn]);
      Ok(Emit(fs.Exists(audio), FromSource(Speech, Some(audio), Some(RowMetadata(fields)), Column(fields, SentenceColumn))))
  }

  /** `SpeechData(source=audio, annotation=row['sentence'], metadata=meta)` for a row with a "path" column. */
  function RecordOfRow(basedir: string, relPath: string, fields: seq<string>): Record
    requires |fields| > PathColumn
  {
    FromSource(Speech, Some(JoinPath3(basedir, relPath, fields[PathColumn])), Some(RowMetadata(fields)), Column(fields, SentenceColumn))
  }

  /**
   * A row's record is a speech record for the audio below the file's directory and the
   * relative path, with the "sentence" column as its transcript (`None` for a short row) and
   * the six metadata columns.
   */
  lemma RecordOfRowShape(basedir: string, relPath: string, fields: seq<string>)
    requires |fields| > PathColumn
    ensures var r := RecordOfRow(basedir, relPath, fields);
      && r.kind == Speech && r.source == Some(JoinPath3(basedir, relPath, fields[PathColumn]))
      && r.annotation == Column(fields, SentenceColumn) && r.metadata == Some(RowMetadata(fields))
  {
  }

  /** The row reaches the "path" column (`csv.DictReader` fills a missing one with `None`). */
  predicate HasPath(row: string) {
    |Split(row, Delimiter)| > PathColumn
  }

  /** The records of the rows before the first one without a "path" column, in order. */
  function RowsRecords(basedir: string, relPath: string, rows: seq<string>): seq<Record> {
    MapWhile(rows, HasPath, row requires HasPath(row) => RecordOfRow(basedir, relPath, Split(row, Delimiter)))
  }

  /**
   * The rows' records are one per row, in order, for the rows before the first one without a
   * "path" column, and for no row after it.
   */
  lemma RowsRecordsAt(basedir: string, relPath: string, rows: seq<string>)
    ensures var rs := RowsRecords(basedir, relPath, rows);
      && |rs| <= |rows|
      && (forall k :: 0 <= k < |rs| ==> |Split(rows[k], Delimiter)| > PathColumn)
      && (forall k :: 0 <= k < |rs| ==> rs[k] == RecordOfRow(basedir, relPath, Split(rows[k], Delimiter)))
      && (|rs| < |rows| ==> |Split(rows[|rs|], Delimiter)| <= PathColumn)
  {
    MapWhileAt(rows, HasPath, row requires HasPath(row) => RecordOfRow(basedir, relPath, Split(row, Delimiter)));
  }

  /** The rows after the header, each yielding its record, until a row without a path. */
  function ReadRows(fs: FileSystem, basedir: string, relPath: string, rows: seq<string>): Outcome {
    if |rows| == 0 then Outcome([], None)
    else match RowYields(fs, basedir, relPath, rows[0])
      case Err(e) => Outcome([], Some(e))
      case Ok(ys) => Prepend(ys, ReadRows(fs, basedir, relPath, rows[1..]))
  }

  /**
   * The rows `csv.reader` sees after the header: it ends a row at "\r", "\n" or "\r\n",
   * and `csv.DictReader` skips the empty ones.
   */
  function DataRows(content: string, header: string): seq<string>
    requires StartsWith(content, header)
  {
    SplitLines(content[|header|..])
  }

  /** What `read()` yields for the input file `input`. */
  function ReadFile(fs: FileSystem, input: string, relPath: string): Outcome {
    match ReadRaw(fs, input)
    case Err(e) => Outcome([], Some(e))
    case Ok(content) =>
      var header := FirstLine(content);
      if header == ExpectedHeader + "\n" || header == ExpectedHeaderOld + "\n" then
        ReadRows(fs, Dirname(input), relPath, DataRows(content, header))
      else Outcome([], Some(HeaderError(header)))
  }

  /** A speech record as this reader builds it from a row. */
  predicate RowRecord(r: Record) {
    && r.kind == Speech
    && r.source.Some?
    && r.metadata.Some? && r.metadata.value.Keys == {"client_id", "up_votes", "down_votes", "age", "gender", "locale"}
  }

  predicate AllRowRecords(ys: seq<Option<Record>>) {
    forall k :: 0 <= k < |ys| && ys[k].Some? ==> RowRecord(ys[k].value)
  }

  lemma EmitRowRecord(audioFound: bool, r: Record)
    requires RowRecord(r)
    ensures AllRowRecords(Emit(audioFound, r))
  {
  }

  lemma AllRowRecordsAppend(a: seq<Option<Record>>, b: seq<Option<Record>>)
    requires AllRowRecords(a) && AllRowRecords(b)
    ensures AllRowRecords(a + b)
  {
    forall k | 0 <= k < |a + b| && (a + b)[k].Some? ensures RowRecord((a + b)[k].value) {
      if k >= |a| {
        assert (a + b)[k] == b[k - |a|];
      }
    }
  }

  /**
   * The records read from the rows are exactly those of the rows before the first one
   * without a "path" column, one per row and in order (`RowsRecordsAt`); each is a speech
   * record whose source, transcript and six metadata values come from its row.
   */
  lemma ReadRowsRecords(fs: FileSystem, basedir: string, relPath: string, rows: seq<string>)
    ensures var o := ReadRows(fs, basedir, relPath, rows);
      && AllRowRecords(o.yielded)
      && RecordsOf(o.yielded) == RowsRecords(basedir, relPath, rows)
  {
    ReadRowsKinds(fs, basedir, relPath, rows);
    ReadRowsExact(fs, basedir, relPath, rows);
  }

  lemma {:induction false} ReadRowsKinds(fs: FileSystem, basedir: string, relPath: string, rows: seq<string>)
    ensures AllRowRecords(ReadRows(fs, basedir, relPath, rows).yielded)
  {
    if |rows| > 0 {
      var rest := ReadRows(fs, basedir, relPath, rows[1..]);
      ReadRowsKinds(fs, basedir, relPath, rows[1..]);
      var step := RowYields(fs, basedir, relPath, rows[0]);
      if step.Ok? {
        RowYieldsRecords(fs, basedir, relPath, rows[0]);
        AllRowRecordsAppend(step.value, rest.yielded);
        assert ReadRows(fs, basedir, relPath, rows) == Prepend(step.value, rest);
      }
    }
  }

  lemma {:induction false} ReadRowsExact(fs: FileSystem, basedir: string, relPath: string, rows: seq<string>)
    ensures RecordsOf(ReadRows(fs, basedir, relPath, rows).yielded) == RowsRecords(basedir, relPath, rows)
  {
    if |rows| > 0 && HasPath(rows[0]) {
      ReadRowsExact(fs, basedir, relPath, rows[1..]);
      ReadRowsCons(fs, basedir, relPath, rows);
      RowsRecordsCons(basedir, relPath, rows);
    }
  }

  /** A row with a "path" column adds its record in front of the rest's. */
  lemma ReadRowsCons(fs: FileSystem, basedir: string, relPath: string, rows: seq<string>)
    requires |rows| > 0 && HasPath(rows[0])
    ensures RecordsOf(ReadRows(fs, basedir, relPath, rows).yielded) ==
      [RecordOfRow(basedir, relPath, Split(rows[0], Delimiter))] + RecordsOf(ReadRows(fs, basedir, relPath, rows[1..]).yielded)
  {
    var step := RowYields(fs, basedir, relPath, rows[0]);
    var rest := ReadRows(fs, basedir, relPath, rows[1..]);
    RowYieldsRecords(fs, basedir, relPath, rows[0]);
    assert ReadRows(fs, basedir, relPath, rows) == Prepend(step.value, rest);
    RecordsOfAppend(step.value, rest.yielded);
  }

  lemma RowsRecordsCons(basedir: string, relPath: string, rows: seq<string>)
    requires |rows| > 0 && HasPath(rows[0])
    ensures RowsRecords(basedir, relPath, rows) ==
      [RecordOfRow(basedir, relPath, Split(rows[0], Delimiter))] + RowsRecords(basedir, relPath, rows[1..])
  {
  }

  /**
   * One row with a "path" column yields exactly its record, after a `None` when the audio is
   * missing: a speech record whose source, transcript and six metadata values come from the row.
   */
  lemma RowYieldsRecords(fs: FileSystem, basedir: string, relPath: string, row: string)
    requires RowYields(fs, basedir, relPath, row).Ok?
    ensures var ys := RowYields(fs, basedir, relPath, row).value;
      && AllRowRecords(ys)
      && RecordsOf(ys) == [RecordOfRow(basedir, relPath, Split(row, Delimiter))]
  {
    var fields := Split(row, Delimiter);
    var audio := JoinPath3(basedir, relPath, fields[PathColumn]);
    var r := RecordOfRow(basedir, relPath, fields);
    RowMetadataValues(fields);
    assert RowRecord(r);
    EmitRowRecord(fs.Exists(audio), r);
    RecordsOfEmit(fs.Exists(audio), r);
  }

  /** Reading stops with an error exactly when some row has no "path" column. */
  lemma ReadRowsError(fs: FileSystem, basedir: string, relPath: string, rows: seq<string>)
    ensures var o := ReadRows(fs, basedir, relPath, rows);
      && (o.error.Some? <==> exists k :: 0 <= k < |rows| && |Split(rows[k], Delimiter)| <= PathColumn)
      && (o.error.Some? ==> o.error == Some(PathMissing))
  {
    ReadRowsStops(fs, basedir, relPath, rows);
    RowsRecordsAt(basedir, relPath, rows);
  }

  /** Reading stops with the error exactly when the rows' records end before the rows do. */
  lemma {:induction false} ReadRowsStops(fs: FileSystem, basedir: string, relPath: string, rows: seq<string>)
    ensures ReadRows(fs, basedir, relPath, rows).error ==
      if |RowsRecords(basedir, relPath, rows)| < |rows| then Some(PathMissing) else None
  {
    if |rows| > 0 {
      var step := RowYields(fs, basedir, relPath, rows[0]);
      if step.Ok? {
        ReadRowsStops(fs, basedir, relPath, rows[1..]);
        assert ReadRows(fs, basedir, relPath, rows).error == ReadRows(fs, basedir, relPath, rows[1..]).error;
      }
    }
  }

  lemma ReadRowsUnfold(fs: FileSystem, basedir: string, relPath: string, rows: seq<string>, i: int)
    requires 0 <= i < |rows|
    ensures var step := RowYields(fs, basedir, relPath, rows[i]);
      ReadRows(fs, basedir, relPath, rows[i..]) ==
        if step.Err? then Outcome([], Some(step.msg))
        else Prepend(step.value, ReadRows(fs, basedir, relPath, rows[i + 1..]))
  {
    assert rows[i..][0] == rows[i];
    assert rows[i..][1..] == rows[i + 1..];
  }

  /** The loop of `read()` over the rows of one file. */
  method ReadRowsOf(fs: FileSystem, basedir: string, relPath: string, rows: seq<string>) returns (o: Outcome)
    ensures o == ReadRows(fs, basedir, relPath, rows)
  {
    var yielded: seq<Option<Record>> := [];
    var i := 0;
    while i < |rows|
      invariant 0 <= i <= |rows|
      invariant ReadRows(fs, basedir, relPath, rows) == Prepend(yielded, ReadRows(fs, basedir, relPath, rows[i..]))
    {
      ReadRowsUnfold(fs, basedir, relPath, rows, i);
      ghost var rest := ReadRows(fs, basedir, relPath, rows[i + 1..]);
      var step := RowYields(fs, basedir, relPath, rows[i]);
      if step.Err? {
        assert yielded + [] == yielded;
        return Outcome(yielded, Some(step.msg));
      }
      PrependTwice(yielded, step.value, rest);
      yielded := yielded + step.value;
      i := i + 1;
    }
    assert rows[i..] == [];
    o := Outcome(yielded, None);
  }

  class CommonVoiceSpeechReader {
    var relPath: Option<string>
    /** The input files not read yet; `None` until the first `read()` locates them. */
    var inputs: Option<seq<string>>
    var currentInput: Option<string>

    constructor(relPath: Option<string>)
      ensures this.relPath == relPath && inputs == None && currentInput == None
    {
      this.relPath := relPath;
      inputs := None;
      currentInput := None;
    }

    /** `initialize()`: the inputs are located lazily; the relative path defaults to ".". */
    method Initialize()
      modifies this
      ensures inputs == None && relPath == Some(old(relPath).GetOr(DefaultRelPath))
      ensures currentInput == old(currentInput)
    {
      inputs := None;
      if relPath.None? {
        relPath := Some(DefaultRelPath);
      }
    }

    /**
     * `read()`: on the first call the inputs are what `locate_files` found (`located`), an
     * empty result raising; then the next input file is taken and its rows are yielded.
     */
    method Read(fs: FileSystem, located: seq<string>) returns (o: Outcome)
      requires relPath.Some?
      modifies this
      ensures relPath == old(relPath)
      ensures old(inputs).None? && located == [] ==>
        o == Outcome([], Some(NoInputs)) && inputs == None && currentInput == old(currentInput)
      ensures var pending := if old(inputs).Some? then old(inputs).value else located;
        (old(inputs).Some? || located != []) ==>
          if pending == [] then
            o == Outcome([], Some(EmptyPop)) && inputs == Some([]) && currentInput == old(currentInput)
          else
            && inputs == Some(pending[1..]) && currentInput == Some(pending[0])
            && o == ReadFile(fs, pending[0], old(relPath).value)
    {
      if inputs.None? {
        if located == [] {
          return Outcome([], Some(NoInputs));
        }
        inputs := Some(located);
      }
      var pending := inputs.value;
      if pending == [] {
        return Outcome([], Some(EmptyPop));
      }
      var input := pending[0];
      inputs := Some(pending[1..]);
      currentInput := Some(input);
      var content := ReadRaw(fs, input);
      if content.Err? {
        return Outcome([], Some(content.msg));
      }
      var header := FirstLine(content.value);
      if header != ExpectedHeader + "\n" && header != ExpectedHeaderOld + "\n" {
        return Outcome([], Some(HeaderError(header)));
      }
      o := ReadRowsOf(fs, Dirname(input), relPath.value, DataRows(content.value, header));
    }

    /** `has_finished()`: the inputs have been located and all of them read. */
    predicate HasFinished()
      reads this
    {
      inputs == Some([])
    }
  }
}

/**
 * The audio-info writer: it collects one row of facts per classification or speech item
 * (file name, size, sample rate, mono, duration and annotation) and, when finalized, outputs
 * them as text, CSV or JSON, to a file or to standard output.
 */
module AudioInfoWriter {
  import opened Wrappers
  import opened Paths
  import opened Records
  import opened ReaderSupport

  const FormatText: string := "text"
  const FormatCsv: string := "csv"
  const FormatJson: string := "json"
  /** The choices the command line offers for the output format. */
  const OutputFormats: seq<string> := [FormatCsv, FormatJson]
  const DefaultFormat: string := FormatText
  const DefaultLabel: string := "additional"

  /** `append_info`'s arguments: one row of collected facts. */
  datatype InfoRow = InfoRow(
    fileName: string,
    fileSize: int,
    sampleRate: Option<int>,
    mono: bool,
    duration: Option<real>,
    additional: Option<string>)

  /** The heading the first item of a kind fixes: "label" for classification, "transcript" for speech. */
  function KindLabel(kind: Kind): (heading: Option<string>)
    ensures heading.Some? <==> kind != Base
    ensures kind == Classification ==> heading == Some("label")
    ensures kind == Speech ==> heading == Some("transcript")
  {
    match kind
    case Classification => Some("label")
    case Speech => Some("transcript")
    case Base => None
  }

  /**
   * `_file_size(item)`: the length of the raw bytes when present, else the size of the source
   * file (which fails when that file is missing), else -1.
   */
  function FileSize(fs: FileSystem, r: Record): (size: Result<int>)
    ensures r.data.Some? ==> size == Ok(|r.data.value|)
    ensures r.data.None? && r.source.None? ==> size == Ok(-1)
    ensures r.data.None? && r.source.Some? ==> (size.Ok? <==> fs.Exists(r.source.value))
    ensures size.Ok? ==> size.value >= -1
  {
    if r.data.Some? then Ok(|r.data.value|)
    else if r.source.Some? then
      if fs.Exists(r.source.value) then Ok(|fs.files[r.source.value]|) else Err(MissingFile(r.source.value))
    else Ok(-1)
  }

  function RowOf(r: Record, size: int): InfoRow {
    InfoRow(r.audioName, size, r.sampleRate, IsMono(r), r.duration, r.annotation)
  }

  /** What the writer has collected: the rows, the heading, and the error that ended a batch, if any. */
  datatype Collected = Collected(rows: seq<InfoRow>, heading: Option<string>, error: Option<string>)

  /** One recognised item: its row is appended, and its kind's heading is taken if none is set yet. */
  function Append(c: Collected, r: Record, size: int): Collected
    requires r.kind != Base
  {
    Collected(c.rows + [RowOf(r, size)], if c.heading.None? then KindLabel(r.kind) else c.heading, c.error)
  }

  /** `write_batch(data)`, from what was collected before: plain audio items are skipped. */
  function Batch(c: Collected, items: seq<Record>, fs: FileSystem): Collected
    decreases |items|
  {
    if |items| == 0 then c
    else if items[0].kind == Base then Batch(c, items[1..], fs)
    else
      var size := FileSize(fs, items[0]);
      if size.Err? then c.(error := Some(size.msg))
      else Batch(Append(c, items[0], size.value), items[1..], fs)
  }

  /** The items of a batch that produce a row. */
  predicate Recognised(r: Record) {
    r.kind != Base
  }

  /** An item whose size cannot be determined. */
  predicate SizeFails(fs: FileSystem, r: Record) {
    Recognised(r) && FileSize(fs, r).Err?
  }

  /** The rows of the recognised items, each with its size. */
  function RowsOf(items: seq<Record>, fs: FileSystem): seq<InfoRow>
    requires forall k :: 0 <= k < |items| ==> !SizeFails(fs, items[k])
  {
    if |items| == 0 then []
    else
      assert !SizeFails(fs, items[0]);
      assert forall k :: 1 <= k < |items| ==> items[1..][k - 1] == items[k];
      (if Recognised(items[0]) then [RowOf(items[0], FileSize(fs, items[0]).value)] else [])
        + RowsOf(items[1..], fs)
  }

  function CountRecognised(items: seq<Record>): nat {
    if |items| == 0 then 0 else (if Recognised(items[0]) then 1 else 0) + CountRecognised(items[1..])
  }

  lemma {:induction false} RowsOfCount(items: seq<Record>, fs: FileSystem)
    requires forall k :: 0 <= k < |items| ==> !SizeFails(fs, items[k])
    ensures |RowsOf(items, fs)| == CountRecognised(items)
  {
    if |items| > 0 {
      RowsOfCount(items[1..], fs);
    }
  }

  lemma BatchUnfold(c: Collected, items: seq<Record>, fs: FileSystem, i: nat)
    requires i < |items|
    ensures Batch(c, items[i..], fs) ==
      if items[i].kind == Base then Batch(c, items[i + 1..], fs)
      else if FileSize(fs, items[i]).Err? then c.(error := Some(FileSize(fs, items[i]).msg))
      else Batch(Append(c, items[i], FileSize(fs, items[i]).value), items[i + 1..], fs)
  {
    assert items[i..][0] == items[i];
    assert items[i..][1..] == items[i + 1..];
  }

  /**
   * A batch fails exactly when a recognised item's size cannot be determined; otherwise it
   * appends one row per recognised item, in order, and keeps the earlier rows.
   */
  lemma {:induction false} BatchRows(c: Collected, items: seq<Record>, fs: FileSystem)
    requires c.error == None
    ensures var b := Batch(c, items, fs);
      && (b.error.Some? <==> exists k :: 0 <= k < |items| && SizeFails(fs, items[k]))
      && (b.error.None? ==> b.rows == c.rows + RowsOf(items, fs))
    decreases |items|
  {
    if |items| > 0 {
      var tail := items[1..];
      assert forall k :: 1 <= k < |items| ==> tail[k - 1] == items[k];
      if items[0].kind == Base {
        BatchRows(c, tail, fs);
        if Batch(c, items, fs).error.None? {
          assert RowsOf(items, fs) == [] + RowsOf(tail, fs);
        }
      } else if FileSize(fs, items[0]).Ok? {
        var size := FileSize(fs, items[0]).value;
        var next := Append(c, items[0], size);
        BatchRows(next, tail, fs);
        if Batch(c, items, fs).error.None? {
          SeqAssoc(c.rows, [RowOf(items[0], size)], RowsOf(tail, fs));
        }
      }
    }
  }

  /** Once set, the heading never changes. */
  lemma {:induction false} LabelKept(c: Collected, items: seq<Record>, fs: FileSystem)
    requires c.heading.Some?
    ensures Batch(c, items, fs).heading == c.heading
    decreases |items|
  {
    if |items| > 0 {
      if items[0].kind == Base {
        LabelKept(c, items[1..], fs);
      } else if FileSize(fs, items[0]).Ok? {
        LabelKept(Append(c, items[0], FileSize(fs, items[0]).value), items[1..], fs);
      }
    }
  }

  /** The first recognised item whose row is appended fixes the heading to its kind's. */
  lemma LabelFromFirst(c: Collected, items: seq<Record>, fs: FileSystem, i: nat)
    requires c.heading.None?
    requires i < |items| && Recognised(items[i]) && FileSize(fs, items[i]).Ok?
    requires forall k :: 0 <= k < i ==> !Recognised(items[k])
    ensures Batch(c, items, fs).heading == KindLabel(items[i].kind)
  {
    LabelFromFirstAt(c, items, fs, i, 0);
  }

  lemma {:induction false} LabelFromFirstAt(c: Collected, items: seq<Record>, fs: FileSystem, i: nat, j: nat)
    requires c.heading.None?
    requires j <= i < |items| && Recognised(items[i]) && FileSize(fs, items[i]).Ok?
    requires forall k :: j <= k < i ==> !Recognised(items[k])
    ensures Batch(c, items[j..], fs).heading == KindLabel(items[i].kind)
    decreases i - j
  {
    BatchUnfold(c, items, fs, j);
    if j < i {
      LabelFromFirstAt(c, items, fs, i, j + 1);
    } else {
      var next := Append(c, items[i], FileSize(fs, items[i]).value);
      LabelKept(next, items[i + 1..], fs);
    }
  }

  lemma BatchStep(start: Collected, c: Collected, items: seq<Record>, fs: FileSystem, i: nat, size: int)
    requires i < |items| && items[i].kind != Base && FileSize(fs, items[i]) == Ok(size)
    requires Batch(c, items[i..], fs) == Batch(start, items, fs)
    ensures Batch(Append(c, items[i], size), items[i + 1..], fs) == Batch(start, items, fs)
  {
    BatchUnfold(c, items, fs, i);
  }

  lemma BatchSkip(start: Collected, c: Collected, items: seq<Record>, fs: FileSystem, i: nat)
    requires i < |items| && items[i].kind == Base
    requires Batch(c, items[i..], fs) == Batch(start, items, fs)
    ensures Batch(c, items[i + 1..], fs) == Batch(start, items, fs)
  {
    BatchUnfold(c, items, fs, i);
  }

  lemma BatchFail(start: Collected, c: Collected, items: seq<Record>, fs: FileSystem, i: nat, e: string)
    requires i < |items| && items[i].kind != Base && FileSize(fs, items[i]) == Err(e)
    requires Batch(c, items[i..], fs) == Batch(start, items, fs)
    ensures c.(error := Some(e)) == Batch(start, items, fs)
  {
    BatchUnfold(c, items, fs, i);
  }

  /** The loop of `write_batch`, from the rows and heading collected before. */
  method CollectRows(rows: seq<InfoRow>, heading: Option<string>, items: seq<Record>, fs: FileSystem)
    returns (rows': seq<InfoRow>, heading': Option<string>, error: Option<string>)
    ensures Collected(rows', heading', error) == Batch(Collected(rows, heading, None), items, fs)
  {
    rows', heading', error := rows, heading, None;
    var i := 0;
    while i < |items|
      invariant 0 <= i <= |items|
      invariant Batch(Collected(rows', heading', None), items[i..], fs) == Batch(Collected(rows, heading, None), items, fs)
    {
      var item := items[i];
      if item.kind == Base {
        BatchSkip(Collected(rows, heading, None), Collected(rows', heading', None), items, fs, i);
      } else {
        var size := FileSize(fs, item);
        if size.Err? {
          BatchFail(Collected(rows, heading, None), Collected(rows', heading', None), items, fs, i, size.msg);
          return rows', heading', Some(size.msg);
        }
        BatchStep(Collected(rows, heading, None), Collected(rows', heading', None), items, fs, i, size.value);
        rows' := rows' + [RowOf(item, size.value)];
        if heading'.None? {
          heading' := KindLabel(item.kind);
        }
      }
      i := i + 1;
    }
    assert items[i..] == [];
  }

  // ---------------------------------------------------------------------------
  // Output

  /** The header row of the CSV output. */
  function CsvHeader(heading: string): (header: seq<string>)
    ensures |header| == 6 && header[5] == heading
    ensures header[..5] == ["file_name", "file_size", "sample_rate", "mono", "duration_seconds"]
  {
    ["file_name", "file_size", "sample_rate", "mono", "duration_seconds", heading]
  }

  /** What is output, before the values are printed: the rows in one of the three layouts. */
  datatype Body =
    | TextBody(rows: seq<InfoRow>, heading: string)
    | CsvBody(header: seq<string>, rows: seq<InfoRow>)
    | JsonBody(rows: seq<InfoRow>, heading: string)

  /** Where the output goes: standard output, or the output file. */
  datatype Output = Output(toStdout: bool, file: Option<string>, body: Body)

  /** The `TypeError` of `%d` given `None`. */
  const IntFormatNone: string := "%d format: a real number is required, not NoneType"
  /** The `TypeError` of `%f` given `None`. */
  const FloatFormatNone: string := "must be real number, not NoneType"

  /**
   * The error of formatting one row as text, if any: the sample rate goes to a `%d` and the
   * duration to a `%f`, left to right, and neither accepts `None`.
   */
  function TextRowError(row: InfoRow): Option<string> {
    if row.sampleRate.None? then Some(IntFormatNone)
    else if row.duration.None? then Some(FloatFormatNone)
    else None
  }

  /** The error of the first row that cannot be formatted as text, if any. */
  function TextError(rows: seq<InfoRow>): (e: Option<string>)
    ensures e.Some? <==> exists k :: 0 <= k < |rows| && (rows[k].sampleRate.None? || rows[k].duration.None?)
    ensures e.Some? ==> e == Some(IntFormatNone) || e == Some(FloatFormatNone)
  {
    if |rows| == 0 then None
    else if TextRowError(rows[0]).Some? then TextRowError(rows[0])
    else
      var e := TextError(rows[1..]);
      assert forall k :: 1 <= k < |rows| ==> rows[1..][k - 1] == rows[k];
      e
  }

  /** The text error is the one of the first row that has a missing sample rate or duration. */
  lemma {:induction false} TextErrorFirst(rows: seq<InfoRow>, k: nat)
    requires k < |rows| && TextRowError(rows[k]).Some?
    requires forall j :: 0 <= j < k ==> TextRowError(rows[j]).None?
    ensures TextError(rows) == TextRowError(rows[k])
  {
    if k > 0 {
      assert forall j :: 0 <= j < k - 1 ==> rows[1..][j] == rows[j + 1];
      TextErrorFirst(rows[1..], k - 1);
    }
  }

  /**
   * `output_info()`: the output goes to standard output when no output file is named; the
   * text layout fails on a row without sample rate or duration, before anything is output.
   */
  function OutputOf(outputFile: Option<string>, format: string, rows: seq<InfoRow>, heading: Option<string>): (r: Result<Output>)
    ensures r.Ok? <==> (format == FormatText && TextError(rows).None?) || format == FormatCsv || format == FormatJson
    ensures r.Err? && format == FormatText ==> r.msg == TextError(rows).value
    ensures r.Err? && format != FormatText ==> r.msg == "Unhandled output format: " + format
    ensures r.Ok? ==> (r.value.toStdout <==> outputFile.None? || outputFile.value == "")
    ensures r.Ok? && !r.value.toStdout ==> r.value.file == outputFile
    ensures r.Ok? ==> r.value.body.rows == rows
    ensures r.Ok? && format == FormatCsv ==> r.value.body == CsvBody(CsvHeader(heading.GetOr(DefaultLabel)), rows)
    ensures r.Ok? && format == FormatText ==> r.value.body == TextBody(rows, heading.GetOr(DefaultLabel))
    ensures r.Ok? && format == FormatJson ==> r.value.body == JsonBody(rows, heading.GetOr(DefaultLabel))
  {
    var additional := if heading.Some? then heading.value else DefaultLabel;
    var useStdout := outputFile.None? || |outputFile.value| == 0;
    var file := if useStdout then None else outputFile;
    if format == FormatText then
      match TextError(rows)
      case Some(e) => Err(e)
      case None => Ok(Output(useStdout, file, TextBody(rows, additional)))
    else if format == FormatCsv then Ok(Output(useStdout, file, CsvBody(CsvHeader(additional), rows)))
    else if format == FormatJson then Ok(Output(useStdout, file, JsonBody(rows, additional)))
    else Err("Unhandled output format: " + format)
  }

  /** The default format is handled, though the command line does not offer it as a choice. */
  lemma DefaultFormatNotAChoice(outputFile: Option<string>, rows: seq<InfoRow>, heading: Option<string>)
    requires TextError(rows).None?
    ensures DefaultFormat !in OutputFormats
    ensures OutputOf(outputFile, DefaultFormat, rows, heading).Ok?
  {
  }

  /** Without any recognised item the heading column is called "additional". */
  lemma EmptyRunLabel(outputFile: Option<string>, items: seq<Record>, fs: FileSystem)
    requires forall k :: 0 <= k < |items| ==> !Recognised(items[k])
    ensures var c := Batch(Collected([], None, None), items, fs);
      c.rows == [] && OutputOf(outputFile, FormatCsv, c.rows, c.heading).value.body == CsvBody(CsvHeader(DefaultLabel), [])
  {
    BatchNone(Collected([], None, None), items, fs);
  }

  lemma {:induction false} BatchNone(c: Collected, items: seq<Record>, fs: FileSystem)
    requires forall k :: 0 <= k < |items| ==> !Recognised(items[k])
    ensures Batch(c, items, fs) == c
    decreases |items|
  {
    if |items| > 0 {
      assert forall k :: 1 <= k < |items| ==> items[1..][k - 1] == items[k];
      BatchNone(c, items[1..], fs);
    }
  }

  class AudioInfoWriter {
    var outputFile: Option<string>
    var outputFormat: string
    /** `self._data`. */
    var rows: seq<InfoRow>
    /** `self._additional_label`. */
    var additionalLabel: Option<string>

    constructor(outputFile: Option<string>, outputFormat: string)
      ensures this.outputFile == outputFile && this.outputFormat == outputFormat
      ensures rows == [] && additionalLabel == None
    {
      this.outputFile := outputFile;
      this.outputFormat := outputFormat;
      rows := [];
      additionalLabel := None;
    }

    /** `initialize()`: nothing collected, no heading. */
    method Initialize()
      modifies this
      ensures rows == [] && additionalLabel == None
      ensures outputFile == old(outputFile) && outputFormat == old(outputFormat)
    {
      rows := [];
      additionalLabel := None;
    }

    /** `write_batch(data)`: rows appended and the heading fixed as `Batch` describes. */
    method WriteBatch(items: seq<Record>, fs: FileSystem) returns (error: Option<string>)
      modifies this
      ensures Collected(rows, additionalLabel, error) == Batch(Collected(old(rows), old(additionalLabel), None), items, fs)
      ensures outputFile == old(outputFile) && outputFormat == old(outputFormat)
    {
      rows, additionalLabel, error := CollectRows(rows, additionalLabel, items, fs);
    }

    /** `finalize()`: the collected rows, output in the configured format. */
    method Finalize() returns (r: Result<Output>)
      ensures r == OutputOf(outputFile, outputFormat, rows, additionalLabel)
    {
      r := OutputOf(outputFile, outputFormat, rows, additionalLabel);
    }
  }
}

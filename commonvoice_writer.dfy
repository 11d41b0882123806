/**
 * The Common Voice writer: audio files are saved below each item's sub-directory, and each
 * sub-directory gets an "annotations.tsv" with the Common Voice header and one row per
 * annotated item, written by a tab-separated csv writer that neither quotes nor escapes.
 */
module CommonVoiceWriter {
  import opened Wrappers
  import opened Text
  import opened Paths
  import opened Records
  import opened ReaderSupport
  import opened WriterSupport
  import CommonVoiceReader

  const DefaultRelPath: string := "."
  const AnnotationsFile: string := "annotations.tsv"
  /** The csv writer's error for a field it would have to escape without an escape character. */
  const EscapeError: string := "need to escape, but no escapechar set"

  /**
   * The row of an annotated item, in header order, as the csv writer renders its values:
   * `None` as "" and the vote counts 0 as "0".
   */
  function RowFields(r: Record): (fields: seq<string>)
    requires HasAnnotation(r)
    ensures |fields| == 10
    ensures fields[CommonVoiceReader.PathColumn] == r.audioName
    ensures fields[CommonVoiceReader.SentenceColumn] == r.annotation.value
  {
    ["", r.audioName, r.annotation.value, "0", "0", "", "", "", "", ""]
  }

  /** What one item adds to the dictionary: its sub-directory, and its row when it is annotated. */
  function EntryOf(r: Record, p: Placement): Entry<seq<string>> {
    Entry(SubDir(p), if HasAnnotation(r) then Some(RowFields(r)) else None)
  }

  /** What the items of a batch add, in order. */
  function Entries(items: seq<Record>, ps: seq<Placement>): (es: seq<Entry<seq<string>>>)
    requires |items| == |ps|
    ensures |es| == |items|
    ensures forall k :: 0 <= k < |items| ==> es[k].dir == SubDir(ps[k])
    ensures forall k :: 0 <= k < |items| ==> (es[k].line.Some? <==> HasAnnotation(items[k]))
    ensures forall k :: 0 <= k < |items| && HasAnnotation(items[k]) ==> es[k].line.value == RowFields(items[k])
  {
    ItemEntries(items, ps, EntryOf)
  }

  // ---------------------------------------------------------------------------
  // The csv writer

  /** A field the writer would have to escape: it holds the delimiter or a line-end character. */
  predicate NeedsEscape(field: string) {
    CommonVoiceReader.Delimiter in field || '\n' in field || '\r' in field
  }

  predicate RowWritable(fields: seq<string>) {
    forall k :: 0 <= k < |fields| ==> !NeedsEscape(fields[k])
  }

  /** One row as the writer puts it on a line: the fields separated by tabs, nothing quoted. */
  function RowLine(fields: seq<string>): string {
    Join(fields, CommonVoiceReader.Delimiter)
  }

  /** How many rows the writer gets through before one that needs escaping. */
  function Writable(rows: seq<seq<string>>): (n: nat)
    ensures n <= |rows|
  {
    if |rows| == 0 || !RowWritable(rows[0]) then 0 else Writable(rows[1..]) + 1
  }

  /** The rows before the `Writable(rows)`-th can be written, and that one, if any, cannot. */
  lemma {:induction false} WritableSpec(rows: seq<seq<string>>)
    ensures forall k :: 0 <= k < Writable(rows) ==> RowWritable(rows[k])
    ensures Writable(rows) < |rows| ==> !RowWritable(rows[Writable(rows)])
  {
    if |rows| > 0 && RowWritable(rows[0]) {
      WritableSpec(rows[1..]);
      assert forall k :: 1 <= k < |rows| ==> rows[1..][k - 1] == rows[k];
    }
  }

  /** The lines of the rows, in order. */
  function RowLines(rows: seq<seq<string>>): (lines: seq<string>)
    ensures |lines| == |rows|
  {
    if |rows| == 0 then [] else RowLines(rows[..|rows| - 1]) + [RowLine(rows[|rows| - 1])]
  }

  /** The header line `writeheader()` writes: the column names separated by tabs. */
  const HeaderLine: string := CommonVoiceReader.ExpectedHeader + "\n"

  /** The file the writer leaves: the header, then the rows up to the first one it cannot write. */
  function Table(rows: seq<seq<string>>): string {
    HeaderLine + JoinLines(RowLines(rows[..Writable(rows)]))
  }

  /** The error that ends the file, if any. */
  function TableError(rows: seq<seq<string>>): Option<string> {
    if Writable(rows) < |rows| then Some(EscapeError) else None
  }

  /** A file ends in the error exactly when one of its rows cannot be written. */
  lemma TableErrorSpec(rows: seq<seq<string>>)
    ensures TableError(rows).Some? <==> exists k :: 0 <= k < |rows| && !RowWritable(rows[k])
  {
    WritableSpec(rows);
  }

  lemma ContinuePast(rows: seq<seq<string>>, i: nat)
    requires i <= Writable(rows) && i < |rows| && RowWritable(rows[i])
    ensures i < Writable(rows)
  {
    WritableSpec(rows);
  }

  lemma ExitAt(rows: seq<seq<string>>, i: nat)
    requires i <= Writable(rows) && i < |rows| && !RowWritable(rows[i])
    ensures i == Writable(rows)
  {
    WritableSpec(rows);
  }

  lemma RowLinesPrefix(rows: seq<seq<string>>, i: nat)
    requires i < |rows|
    ensures RowLines(rows[..i + 1]) == RowLines(rows[..i]) + [RowLine(rows[i])]
  {
    assert rows[..i + 1][..i] == rows[..i];
  }

  lemma TableStep(rows: seq<seq<string>>, i: nat, content: string)
    requires i < |rows|
    requires content == HeaderLine + JoinLines(RowLines(rows[..i]))
    ensures content + RowLine(rows[i]) + "\n" == HeaderLine + JoinLines(RowLines(rows[..i + 1]))
  {
    RowLinesPrefix(rows, i);
    JoinLinesAppend(RowLines(rows[..i]), RowLine(rows[i]));
  }

  lemma TableDone(rows: seq<seq<string>>, i: nat, content: string)
    requires i == Writable(rows)
    requires content == HeaderLine + JoinLines(RowLines(rows[..i]))
    ensures content == Table(rows)
    ensures TableError(rows) == (if i < |rows| then Some(EscapeError) else None)
  {
  }

  /** `writeheader()` and then `writerow(row)` for each row, on one file. */
  method WriteTable(rows: seq<seq<string>>) returns (content: string, error: Option<string>)
    ensures content == Table(rows) && error == TableError(rows)
  {
    content := HeaderLine;
    ghost var n := Writable(rows);
    var i := 0;
    while i < |rows|
      invariant 0 <= i <= n
      invariant content == HeaderLine + JoinLines(RowLines(rows[..i]))
    {
      if !RowWritable(rows[i]) {
        ExitAt(rows, i);
        TableDone(rows, i, content);
        return content, Some(EscapeError);
      }
      ContinuePast(rows, i);
      TableStep(rows, i, content);
      content := content + RowLine(rows[i]) + "\n";
      i := i + 1;
    }
    TableDone(rows, i, content);
    return content, None;
  }

  /** The files `finalize` leaves, and the error that stopped it, if any. */
  datatype Finalized = Finalized(files: seq<Written>, error: Option<string>)

  /** The file one sub-directory gets, and the error that ended it, if any. */
  function DirOutcome(dir: string, rows: seq<seq<string>>): (Written, Option<string>) {
    (Written(JoinPath(dir, AnnotationsFile), Table(rows)), TableError(rows))
  }

  /** Files written one after another, stopping after the first that ends in an error. */
  function UntilError(outcomes: seq<(Written, Option<string>)>): (f: Finalized)
    ensures |f.files| <= |outcomes|
    ensures f.error.None? ==> |f.files| == |outcomes|
    ensures f.error.Some? ==> |f.files| > 0 && f.error == outcomes[|f.files| - 1].1
  {
    if |outcomes| == 0 then Finalized([], None)
    else if outcomes[0].1.Some? then Finalized([outcomes[0].0], outcomes[0].1)
    else
      var rest := UntilError(outcomes[1..]);
      assert rest.error.Some? ==> outcomes[1..][|rest.files| - 1] == outcomes[|rest.files|];
      Finalized([outcomes[0].0] + rest.files, rest.error)
  }

  /** The `k`-th file is the `k`-th outcome's, and every outcome before the last was free of error. */
  lemma {:induction false} UntilErrorAt(outcomes: seq<(Written, Option<string>)>, k: nat)
    requires k < |UntilError(outcomes).files|
    ensures UntilError(outcomes).files[k] == outcomes[k].0
    ensures k < |UntilError(outcomes).files| - 1 ==> outcomes[k].1.None?
  {
    if k > 0 && outcomes[0].1.None? {
      var rest := UntilError(outcomes[1..]);
      assert UntilError(outcomes).files == [outcomes[0].0] + rest.files;
      UntilErrorAt(outcomes[1..], k - 1);
    }
  }

  lemma UntilErrorUnfold(outcomes: seq<(Written, Option<string>)>, i: nat)
    requires i < |outcomes|
    ensures UntilError(outcomes[i..]) ==
      if outcomes[i].1.Some? then Finalized([outcomes[i].0], outcomes[i].1)
      else Finalized([outcomes[i].0] + UntilError(outcomes[i + 1..]).files, UntilError(outcomes[i + 1..]).error)
  {
    assert outcomes[i..][0] == outcomes[i];
    assert outcomes[i..][1..] == outcomes[i + 1..];
  }

  /** What is left to write from position `i` on, after `files`. */
  predicate UntilErrorFrom(outcomes: seq<(Written, Option<string>)>, i: nat, files: seq<Written>)
    requires i <= |outcomes|
  {
    var rest := UntilError(outcomes[i..]);
    UntilError(outcomes) == Finalized(files + rest.files, rest.error)
  }

  lemma UntilErrorContinue(outcomes: seq<(Written, Option<string>)>, i: nat, files: seq<Written>)
    requires i < |outcomes| && UntilErrorFrom(outcomes, i, files) && outcomes[i].1.None?
    ensures UntilErrorFrom(outcomes, i + 1, files + [outcomes[i].0])
  {
    UntilErrorUnfold(outcomes, i);
    SeqAssoc(files, [outcomes[i].0], UntilError(outcomes[i + 1..]).files);
  }

  lemma UntilErrorStop(outcomes: seq<(Written, Option<string>)>, i: nat, files: seq<Written>)
    requires i < |outcomes| && UntilErrorFrom(outcomes, i, files) && outcomes[i].1.Some?
    ensures UntilError(outcomes) == Finalized(files + [outcomes[i].0], outcomes[i].1)
  {
    UntilErrorUnfold(outcomes, i);
  }

  lemma UntilErrorEnd(outcomes: seq<(Written, Option<string>)>, files: seq<Written>)
    requires UntilErrorFrom(outcomes, |outcomes|, files)
    ensures UntilError(outcomes) == Finalized(files, None)
  {
    assert outcomes[|outcomes|..] == [];
    assert files + [] == files;
  }

  function Outcomes(order: seq<string>, entries: map<string, seq<seq<string>>>): (os: seq<(Written, Option<string>)>)
    requires forall k :: 0 <= k < |order| ==> order[k] in entries
    ensures |os| == |order|
  {
    seq(|order|, i requires 0 <= i < |order| => DirOutcome(order[i], entries[order[i]]))
  }

  /**
   * One "annotations.tsv" per sub-directory, in insertion order; the first file that hits a
   * row it cannot write is left with the rows before it, and no further file is written.
   */
  function Tables(order: seq<string>, entries: map<string, seq<seq<string>>>): (f: Finalized)
    requires forall k :: 0 <= k < |order| ==> order[k] in entries
    ensures |f.files| <= |order|
    ensures f.error.None? ==> |f.files| == |order|
    ensures f.error.Some? ==> f.error == Some(EscapeError) && |f.files| > 0
  {
    var os := Outcomes(order, entries);
    var f := UntilError(os);
    assert f.error.Some? ==> f.error == TableError(entries[order[|f.files| - 1]]);
    f
  }

  /**
   * The `k`-th file belongs to the `k`-th sub-directory and is its table; every file before
   * the last was written whole, and when one stopped `finalize`, it was the last.
   */
  lemma TablesAt(order: seq<string>, entries: map<string, seq<seq<string>>>, k: nat)
    requires forall i :: 0 <= i < |order| ==> order[i] in entries
    requires k < |Tables(order, entries).files|
    ensures Tables(order, entries).files[k] == Written(JoinPath(order[k], AnnotationsFile), Table(entries[order[k]]))
    ensures k < |Tables(order, entries).files| - 1 ==> TableError(entries[order[k]]).None?
    ensures Tables(order, entries).error.Some? && k == |Tables(order, entries).files| - 1 ==> TableError(entries[order[k]]).Some?
  {
    var os := Outcomes(order, entries);
    UntilErrorAt(os, k);
    assert os[k] == DirOutcome(order[k], entries[order[k]]);
  }

  /** The loop of `finalize` over the dictionary. */
  method WriteTables(s: Splits<seq<string>>) returns (files: seq<Written>, error: Option<string>)
    requires Valid(s)
    ensures Finalized(files, error) == Tables(s.order, s.entries)
  {
    ghost var os := Outcomes(s.order, s.entries);
    files := [];
    var i := 0;
    assert os[0..] == os;
    while i < |s.order|
      invariant 0 <= i <= |s.order|
      invariant UntilErrorFrom(os, i, files)
    {
      var dir := s.order[i];
      var content, e := WriteTable(s.entries[dir]);
      var file := Written(JoinPath(dir, AnnotationsFile), content);
      assert os[i] == (file, e);
      if e.Some? {
        UntilErrorStop(os, i, files);
        return files + [file], e;
      }
      UntilErrorContinue(os, i, files);
      files := files + [file];
      i := i + 1;
    }
    UntilErrorEnd(os, files);
    return files, None;
  }

  class CommonVoiceSpeechWriter {
    var relPath: Option<string>
    var annotationsOnly: Option<bool>
    /** `self._splits`. */
    var splits: Splits<seq<string>>

    constructor(relPath: Option<string>, annotationsOnly: Option<bool>)
      ensures this.relPath == relPath && this.annotationsOnly == annotationsOnly && splits == NoSplits()
    {
      this.relPath := relPath;
      this.annotationsOnly := annotationsOnly;
      splits := NoSplits();
    }

    /** `initialize()`: the defaults, and an empty dictionary. */
    method Initialize()
      modifies this
      ensures relPath == Some(old(relPath).GetOr(DefaultRelPath))
      ensures annotationsOnly == Some(old(annotationsOnly).GetOr(false))
      ensures splits == NoSplits() && Valid(splits)
    {
      if relPath.None? {
        relPath := Some(DefaultRelPath);
      }
      if annotationsOnly.None? {
        annotationsOnly := Some(false);
      }
      splits := NoSplits();
    }

    /**
     * `write_batch(data)`: each item's audio is saved (unless only annotations are wanted) and
     * its sub-directory registered, with its row appended when it is annotated. Returns the
     * paths the audio was saved to, in order.
     */
    method WriteBatch(items: seq<Record>, placements: seq<Placement>) returns (saved: seq<string>)
      requires relPath.Some? && annotationsOnly.Some? && Valid(splits)
      requires |placements| == |items|
      modifies this
      ensures relPath == old(relPath) && annotationsOnly == old(annotationsOnly)
      ensures splits == Accumulate(old(splits), Entries(items, placements))
      ensures Valid(splits)
      ensures old(annotationsOnly).value ==> saved == []
      ensures !old(annotationsOnly).value ==>
        saved == AudioTargets(items, placements, old(relPath).value)
    {
      var acc;
      acc, saved := WriteItemEntries(splits, items, placements, relPath.value, annotationsOnly.value, EntryOf);
      AccumulateValid(splits, Entries(items, placements));
      splits := acc;
    }

    /** `finalize()`: the "annotations.tsv" of every sub-directory, until a row cannot be written. */
    method Finalize() returns (files: seq<Written>, error: Option<string>)
      requires Valid(splits)
      ensures Finalized(files, error) == Tables(splits.order, splits.entries)
    {
      files, error := WriteTables(splits);
    }
  }

  // ---------------------------------------------------------------------------
  // Writing, then reading back with the Common Voice reader

  /** An item whose row reads back as written: annotated, and no tab or line end in its name or transcript. */
  predicate ReadableBack(r: Record)
    ensures ReadableBack(r) ==> HasAnnotation(r)
  {
    HasAnnotation(r) && !NeedsEscape(r.audioName) && !NeedsEscape(r.annotation.value)
  }

  predicate AllReadableBack(items: seq<Record>)
    ensures AllReadableBack(items) ==> forall k :: 0 <= k < |items| ==> HasAnnotation(items[k])
  {
    forall k :: 0 <= k < |items| ==> ReadableBack(items[k])
  }

  function Rows(items: seq<Record>): (rows: seq<seq<string>>)
    requires forall k :: 0 <= k < |items| ==> HasAnnotation(items[k])
    ensures |rows| == |items|
  {
    if |items| == 0 then [] else [RowFields(items[0])] + Rows(items[1..])
  }

  /** The metadata the Common Voice reader recovers from a written row: empty strings, and "0" votes. */
  const WrittenMetadata: Metadata :=
    map["client_id" := Str(""), "up_votes" := Str("0"), "down_votes" := Str("0"),
        "age" := Str(""), "gender" := Str(""), "locale" := Str("")]

  lemma RowMetadataWritten(r: Record)
    requires HasAnnotation(r)
    ensures CommonVoiceReader.RowMetadata(RowFields(r)) == WrittenMetadata
  {
    var fields := RowFields(r);
    CommonVoiceReader.RowMetadataValues(fields);
  }

  /** The record the Common Voice reader builds from the row of `r`, in `basedir`, with `metadata`. */
  function ReadBackRecord(basedir: string, relPath: string, metadata: Metadata, r: Record): Record
    requires HasAnnotation(r)
  {
    FromSource(Speech, Some(JoinPath3(basedir, relPath, r.audioName)), Some(metadata), r.annotation)
  }

  function ReadBackRecords(basedir: string, relPath: string, metadata: Metadata, items: seq<Record>): (rs: seq<Record>)
    requires forall k :: 0 <= k < |items| ==> HasAnnotation(items[k])
    ensures |rs| == |items|
  {
    if |items| == 0 then []
    else [ReadBackRecord(basedir, relPath, metadata, items[0])] + ReadBackRecords(basedir, relPath, metadata, items[1..])
  }

  /** When every item goes to one sub-directory, its rows are exactly those of the annotated items, in order. */
  lemma {:induction false} OneDirRows(items: seq<Record>, ps: seq<Placement>, dir: string)
    requires |items| == |ps|
    requires forall k :: 0 <= k < |items| ==> SubDir(ps[k]) == dir && HasAnnotation(items[k])
    ensures LinesFor(Entries(items, ps), dir) == Rows(items)
  {
    if |items| > 0 {
      OneDirRows(items[1..], ps[1..], dir);
      assert Entries(items, ps)[1..] == Entries(items[1..], ps[1..]);
    }
  }

  lemma NoEscapeNoBreaks(f: string)
    requires !NeedsEscape(f)
    ensures NoBreaks(f) && CommonVoiceReader.Delimiter !in f
  {
  }

  /** The row of a readable item can be written, is one non-empty line, and splits back into its fields. */
  lemma RowReadsBack(r: Record)
    requires ReadableBack(r)
    ensures RowWritable(RowFields(r))
    ensures NoBreaks(RowLine(RowFields(r))) && RowLine(RowFields(r)) != ""
    ensures Split(RowLine(RowFields(r)), CommonVoiceReader.Delimiter) == RowFields(r)
  {
    var fields := RowFields(r);
    NoEscapeNoBreaks(r.audioName);
    NoEscapeNoBreaks(r.annotation.value);
    assert forall k :: 0 <= k < |fields| ==> fields[k] in {"", "0", r.audioName, r.annotation.value};
    JoinNoBreaks(fields, CommonVoiceReader.Delimiter);
    SplitJoin(fields, CommonVoiceReader.Delimiter);
    assert Split("", CommonVoiceReader.Delimiter) == [""];
  }

  lemma {:induction false} RowsWritable(items: seq<Record>)
    requires AllReadableBack(items)
    ensures Writable(Rows(items)) == |items|
  {
    if |items| > 0 {
      RowsWritable(items[1..]);
      RowReadsBack(items[0]);
      assert Rows(items)[1..] == Rows(items[1..]);
    }
  }

  lemma {:induction false} RowLinesOf(items: seq<Record>)
    requires AllReadableBack(items)
    ensures |RowLines(Rows(items))| == |items|
    ensures forall k :: 0 <= k < |items| ==> RowLines(Rows(items))[k] == RowLine(RowFields(items[k]))
  {
    var rows := Rows(items);
    RowLinesIndex(rows);
    RowsIndex(items);
  }

  lemma {:induction false} RowsIndex(items: seq<Record>)
    requires forall k :: 0 <= k < |items| ==> HasAnnotation(items[k])
    ensures forall k :: 0 <= k < |items| ==> Rows(items)[k] == RowFields(items[k])
  {
    if |items| > 0 {
      RowsIndex(items[1..]);
      assert forall k :: 1 <= k < |items| ==> items[1..][k - 1] == items[k];
    }
  }

  lemma {:induction false} RowLinesIndex(rows: seq<seq<string>>)
    ensures forall k :: 0 <= k < |rows| ==> RowLines(rows)[k] == RowLine(rows[k])
  {
    if |rows| > 0 {
      var init := rows[..|rows| - 1];
      RowLinesIndex(init);
      assert forall k :: 0 <= k < |init| ==> init[k] == rows[k];
    }
  }

  /** The rows of readable items, read back row by row, yield their records in order. */
  lemma {:induction false} ReadRowsBack(fs: FileSystem, basedir: string, relPath: string, items: seq<Record>, lines: seq<string>)
    requires AllReadableBack(items)
    requires |lines| == |items|
    requires forall k :: 0 <= k < |items| ==> lines[k] == RowLine(RowFields(items[k]))
    ensures var o := CommonVoiceReader.ReadRows(fs, basedir, relPath, lines);
      o.error == None && RecordsOf(o.yielded) == ReadBackRecords(basedir, relPath, WrittenMetadata, items)
  {
    if |items| > 0 {
      var r := items[0];
      ReadRowsBack(fs, basedir, relPath, items[1..], lines[1..]);
      RowReadsBack(r);
      var fields := RowFields(r);
      var audio := JoinPath3(basedir, relPath, r.audioName);
      var rec := FromSource(Speech, Some(audio), Some(CommonVoiceReader.RowMetadata(fields)), Some(r.annotation.value));
      RowMetadataWritten(r);
      assert CommonVoiceReader.RowYields(fs, basedir, relPath, lines[0]) == Ok(Emit(fs.Exists(audio), rec));
      var rest := CommonVoiceReader.ReadRows(fs, basedir, relPath, lines[1..]);
      RecordsOfAppend(Emit(fs.Exists(audio), rec), rest.yielded);
      RecordsOfEmit(fs.Exists(audio), rec);
    }
  }

  /** A table of readable items, read by the Common Voice reader, yields their records in order. */
  lemma ReadTableBack(fs: FileSystem, path: string, relPath: string, items: seq<Record>)
    requires AllReadableBack(items)
    requires path in fs.files && fs.files[path] == Table(Rows(items))
    ensures var o := CommonVoiceReader.ReadFile(fs, path, relPath);
      o.error == None && RecordsOf(o.yielded) == ReadBackRecords(Dirname(path), relPath, WrittenMetadata, items)
  {
    var rows := Rows(items);
    RowsWritable(items);
    assert rows[..|rows|] == rows;
    var lines := RowLines(rows);
    RowLinesOf(items);
    forall k | 0 <= k < |lines| ensures lines[k] != "" && NoBreaks(lines[k]) {
      RowReadsBack(items[k]);
    }
    var header := CommonVoiceReader.ExpectedHeader + "\n";
    var content := fs.files[path];
    assert content == header + JoinLines(lines);
    CommonVoiceReader.HeaderAccepted(content, CommonVoiceReader.ExpectedHeader);
    assert content[|header|..] == JoinLines(lines);
    SplitLinesJoinLines(lines);
    ReadRowsBack(fs, Dirname(path), relPath, items, lines);
  }

  /**
   * Write-then-read: after `initialize()` and a batch whose items all go to `dir` and can be
   * read back, the "annotations.tsv" of `dir`, read by the Common Voice reader, yields one
   * record per item, in order, with the item's transcript as sentence and its audio name
   * below `dir` and the relative path as audio file.
   */
  lemma WriteThenRead(fs: FileSystem, items: seq<Record>, ps: seq<Placement>, dir: string, relPath: string)
    requires |items| == |ps|
    requires forall k :: 0 <= k < |items| ==> SubDir(ps[k]) == dir
    requires AllReadableBack(items)
    requires JoinPath(dir, AnnotationsFile) in fs.files
    requires fs.files[JoinPath(dir, AnnotationsFile)] == Table(LinesOf(Accumulate(NoSplits(), Entries(items, ps)), dir))
    ensures var path := JoinPath(dir, AnnotationsFile);
      var o := CommonVoiceReader.ReadFile(fs, path, relPath);
      o.error == None && RecordsOf(o.yielded) == ReadBackRecords(Dirname(path), relPath, WrittenMetadata, items)
  {
    AccumulateLines(NoSplits(), Entries(items, ps), dir);
    OneDirRows(items, ps, dir);
    assert LinesOf(NoSplits<seq<string>>(), dir) == [];
    assert [] + Rows(items) == Rows(items);
    ReadTableBack(fs, JoinPath(dir, AnnotationsFile), relPath, items);
  }

  /** A transcript holding a tab or a line end stops `finalize` at that sub-directory's file. */
  lemma UnwritableTranscript(r: Record)
    requires HasAnnotation(r) && NeedsEscape(r.annotation.value)
    ensures TableError([RowFields(r)]) == Some(EscapeError)
    ensures Table([RowFields(r)]) == CommonVoiceReader.ExpectedHeader + "\n"
  {
    assert !RowWritable(RowFields(r)) by {
      assert RowFields(r)[CommonVoiceReader.SentenceColumn] == r.annotation.value;
    }
    assert [RowFields(r)][..0] == [];
  }
}

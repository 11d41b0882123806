/**
 * The FestVox writer: audio files are saved below each item's sub-directory, and the
 * transcripts of each sub-directory are collected as `( <stem> "<transcript>" )` lines that
 * `finalize` writes to "annotations.txt" in that sub-directory.
 */
module FestVoxWriter {
  import opened Wrappers
  import opened Text
  import opened Paths
  import opened Records
  import opened ReaderSupport
  import opened WriterSupport
  import FestVoxReader

  const DefaultRelPath: string := "."
  const AnnotationsFile: string := "annotations.txt"

  /** `"( %s \"%s\" )" % (stem, transcript)`: no escaping is applied. */
  function Line(r: Record): string
    requires HasAnnotation(r)
  {
    FestVoxReader.FormatLine(Stem(r), r.annotation.value)
  }

  /** What one item adds to the dictionary: its sub-directory, and its line when it is annotated. */
  function EntryOf(r: Record, p: Placement): Entry<string> {
    Entry(SubDir(p), if HasAnnotation(r) then Some(Line(r)) else None)
  }

  /** What the items of a batch add, in order. */
  function Entries(items: seq<Record>, ps: seq<Placement>): (es: seq<Entry<string>>)
    requires |items| == |ps|
    ensures |es| == |items|
    ensures forall k :: 0 <= k < |items| ==> es[k].dir == SubDir(ps[k])
    ensures forall k :: 0 <= k < |items| ==> (es[k].line.Some? <==> HasAnnotation(items[k]))
    ensures forall k :: 0 <= k < |items| && HasAnnotation(items[k]) ==> es[k].line.value == Line(items[k])
  {
    ItemEntries(items, ps, EntryOf)
  }

  class FestVoxSpeechWriter {
    var relPath: Option<string>
    var annotationsOnly: Option<bool>
    /** `self._splits`. */
    var splits: Splits<string>

    constructor(relPath: Option<string>, annotationsOnly: Option<bool>)
      ensures this.relPath == relPath && this.annotationsOnly == annotationsOnly && splits == NoSplits()
    {
      this.relPath := relPath;
      this.annotationsOnly := annotationsOnly;
      splits := NoSplits();
    }

    /** `initialize()`: the defaults, and an empty dictionary. */
    method Initialize()
      modifies this
      ensures relPath == Some(old(relPath).GetOr(DefaultRelPath))
      ensures annotationsOnly == Some(old(annotationsOnly).GetOr(false))
      ensures splits == NoSplits() && Valid(splits)
    {
      if relPath.None? {
        relPath := Some(DefaultRelPath);
      }
      if annotationsOnly.None? {
        annotationsOnly := Some(false);
      }
      splits := NoSplits();
    }

    /**
     * `write_batch(data)`: each item's audio is saved (unless only annotations are wanted) and
     * its sub-directory registered, with its line appended when it is annotated. Returns the
     * paths the audio was saved to, in order.
     */
    method WriteBatch(items: seq<Record>, placements: seq<Placement>) returns (saved: seq<string>)
      requires relPath.Some? && annotationsOnly.Some? && Valid(splits)
      requires |placements| == |items|
      modifies this
      ensures relPath == old(relPath) && annotationsOnly == old(annotationsOnly)
      ensures splits == Accumulate(old(splits), Entries(items, placements))
      ensures Valid(splits)
      ensures old(annotationsOnly).value ==> saved == []
      ensures !old(annotationsOnly).value ==>
        saved == AudioTargets(items, placements, old(relPath).value)
    {
      var acc;
      acc, saved := WriteItemEntries(splits, items, placements, relPath.value, annotationsOnly.value, EntryOf);
      AccumulateValid(splits, Entries(items, placements));
      splits := acc;
    }

    /** `finalize()`: every sub-directory gets its lines, each plus "\n", in "annotations.txt". */
    method Finalize() returns (files: seq<Written>)
      requires Valid(splits)
      ensures files == Manifests(splits.order, splits.entries, AnnotationsFile)
    {
      files := WriteManifests(splits, AnnotationsFile);
    }
  }

  // ---------------------------------------------------------------------------
  // Writing, then reading back with the FestVox reader

  /**
   * An item whose line reads back as written: annotated, with neither the stem nor the
   * transcript holding a line break, and the transcript holding no `" ` that would end the
   * greedy file name later.
   */
  predicate ReadableBack(r: Record)
    ensures ReadableBack(r) ==> HasAnnotation(r)
  {
    && HasAnnotation(r)
    && NoBreaks(Stem(r)) && NoBreaks(r.annotation.value)
    && !FestVoxReader.HasSeparator(r.annotation.value)
  }

  predicate AllReadableBack(items: seq<Record>)
    ensures AllReadableBack(items) ==> forall k :: 0 <= k < |items| ==> HasAnnotation(items[k])
  {
    forall k :: 0 <= k < |items| ==> ReadableBack(items[k])
  }

  function Lines(items: seq<Record>): seq<string>
    requires forall k :: 0 <= k < |items| ==> HasAnnotation(items[k])
  {
    if |items| == 0 then [] else [Line(items[0])] + Lines(items[1..])
  }

  /** The records the FestVox reader builds from the lines of `items`, in `basedir`. */
  function ReadBackRecords(basedir: string, relPath: string, items: seq<Record>): seq<Record>
    requires forall k :: 0 <= k < |items| ==> HasAnnotation(items[k])
  {
    if |items| == 0 then []
    else
      var r := FromSource(Speech, Some(FestVoxReader.AudioPath(basedir, relPath, Stem(items[0]))), None, items[0].annotation);
      [r] + ReadBackRecords(basedir, relPath, items[1..])
  }

  /** When every item goes to one sub-directory, its lines are exactly those of the annotated items, in order. */
  lemma {:induction false} OneDirLines(items: seq<Record>, ps: seq<Placement>, dir: string)
    requires |items| == |ps|
    requires forall k :: 0 <= k < |items| ==> SubDir(ps[k]) == dir && HasAnnotation(items[k])
    ensures LinesFor(Entries(items, ps), dir) == Lines(items)
  {
    if |items| > 0 {
      OneDirLines(items[1..], ps[1..], dir);
      assert Entries(items, ps)[1..] == Entries(items[1..], ps[1..]);
    }
  }

  /** A written line is a single line that `strip()` leaves alone and that parses back. */
  lemma LineReadsBack(r: Record)
    requires ReadableBack(r)
    ensures NoBreaks(Line(r))
    ensures FestVoxReader.Classify(Line(r)) == FestVoxReader.Line.Entry(Stem(r), r.annotation.value)
  {
    var f, t := Stem(r), r.annotation.value;
    var line := Line(r);
    assert line == FestVoxReader.LineStart + f + FestVoxReader.Separator + t + FestVoxReader.LineEnd;
    forall i | 0 <= i < |line| ensures !IsBreak(line[i]) {
      if i < 2 {
        assert line[i] == FestVoxReader.LineStart[i];
      } else if i < 2 + |f| {
        assert line[i] == f[i - 2];
      } else if i < 4 + |f| {
        assert line[i] == FestVoxReader.Separator[i - 2 - |f|];
      } else if i < 4 + |f| + |t| {
        assert line[i] == t[i - 4 - |f|];
      } else {
        assert line[i] == FestVoxReader.LineEnd[i - 4 - |f| - |t|];
      }
    }
    assert line[0] == '(' && line[|line| - 1] == ')';
    StripUnchanged(line);
    FestVoxReader.ParseFormatLine(f, t);
  }

  lemma JoinLinesNoCR(lines: seq<string>)
    requires forall k :: 0 <= k < |lines| ==> NoBreaks(lines[k])
    ensures '\r' !in JoinLines(lines)
    decreases |lines|
  {
    if |lines| > 0 {
      JoinLinesNoCR(lines[1..]);
      var rest := JoinLines(lines[1..]);
      var s := lines[0] + "\n" + rest;
      forall i | 0 <= i < |s| ensures s[i] != '\r' {
        if i < |lines[0]| {
          assert s[i] == lines[0][i];
        } else if i > |lines[0]| {
          assert s[i] == rest[i - |lines[0]| - 1];
        }
      }
    }
  }

  lemma {:induction false} SplitBreaksJoinLines(lines: seq<string>)
    requires forall k :: 0 <= k < |lines| ==> NoBreaks(lines[k])
    ensures SplitBreaks(JoinLines(lines)) == lines + [""]
  {
    if |lines| > 0 {
      SplitBreaksJoinLines(lines[1..]);
      SplitBreaksFirst(lines[0], JoinLines(lines[1..]));
      assert lines == [lines[0]] + lines[1..];
    }
  }

  lemma {:induction false} LinesNoBreaks(items: seq<Record>)
    requires AllReadableBack(items)
    ensures forall k :: 0 <= k < |Lines(items) + [""]| ==> NoBreaks((Lines(items) + [""])[k])
  {
    if |items| > 0 {
      LinesNoBreaks(items[1..]);
      LineReadsBack(items[0]);
      var tail := Lines(items[1..]) + [""];
      SeqAssoc([Line(items[0])], Lines(items[1..]), [""]);
      assert Lines(items) + [""] == [Line(items[0])] + tail;
      ConsNoBreaks(Line(items[0]), tail);
    }
  }

  lemma ConsNoBreaks(line: string, tail: seq<string>)
    requires NoBreaks(line)
    requires forall k :: 0 <= k < |tail| ==> NoBreaks(tail[k])
    ensures forall k :: 0 <= k < |[line] + tail| ==> NoBreaks(([line] + tail)[k])
  {
    forall k | 0 < k < |tail| + 1 ensures NoBreaks(([line] + tail)[k]) {
      assert ([line] + tail)[k] == tail[k - 1];
    }
  }

  /** The first line of a written file yields the first item's record. */
  lemma ReadLinesBackStep(fs: FileSystem, basedir: string, relPath: string, r: Record, lines: seq<string>)
    requires ReadableBack(r)
    requires |lines| > 0 && lines[0] == Line(r)
    ensures var o := FestVoxReader.ReadLines(fs, basedir, relPath, lines);
      var rest := FestVoxReader.ReadLines(fs, basedir, relPath, lines[1..]);
      var rec := FromSource(Speech, Some(FestVoxReader.AudioPath(basedir, relPath, Stem(r))), None, r.annotation);
      o.error == rest.error && RecordsOf(o.yielded) == [rec] + RecordsOf(rest.yielded)
  {
    LineReadsBack(r);
    var rest := FestVoxReader.ReadLines(fs, basedir, relPath, lines[1..]);
    var ys := FestVoxReader.EntryYields(fs, basedir, relPath, Stem(r), r.annotation.value);
    assert FestVoxReader.ReadLines(fs, basedir, relPath, lines) == Prepend(ys, rest);
    RecordsOfAppend(ys, rest.yielded);
    var audio := FestVoxReader.AudioPath(basedir, relPath, Stem(r));
    RecordsOfEmit(fs.Exists(audio), FromSource(Speech, Some(audio), None, Some(r.annotation.value)));
  }

  lemma {:induction false} ReadLinesBack(fs: FileSystem, basedir: string, relPath: string, items: seq<Record>)
    requires AllReadableBack(items)
    ensures forall k :: 0 <= k < |Lines(items) + [""]| ==> NoBreaks((Lines(items) + [""])[k])
    ensures var o := FestVoxReader.ReadLines(fs, basedir, relPath, Lines(items) + [""]);
      o.error == None && RecordsOf(o.yielded) == ReadBackRecords(basedir, relPath, items)
  {
    LinesNoBreaks(items);
    if |items| == 0 {
      assert [""][0] == "";
      assert [""][1..] == [];
      StripUnchanged("");
    } else {
      var tail := Lines(items[1..]) + [""];
      ReadLinesBack(fs, basedir, relPath, items[1..]);
      SeqAssoc([Line(items[0])], Lines(items[1..]), [""]);
      assert Lines(items) + [""] == [Line(items[0])] + tail;
      var lines := Lines(items) + [""];
      assert lines[0] == Line(items[0]) && lines[1..] == tail;
      ReadLinesBackStep(fs, basedir, relPath, items[0], lines);
    }
  }

  /** When every item goes to `dir` and is annotated, the lines collected for `dir` from scratch are theirs. */
  lemma ManifestLines(items: seq<Record>, ps: seq<Placement>, dir: string)
    requires |items| == |ps|
    requires forall k :: 0 <= k < |items| ==> SubDir(ps[k]) == dir && HasAnnotation(items[k])
    ensures LinesOf(Accumulate(NoSplits(), Entries(items, ps)), dir) == Lines(items)
  {
    AccumulateLines(NoSplits(), Entries(items, ps), dir);
    OneDirLines(items, ps, dir);
    assert LinesOf(NoSplits<string>(), dir) == [];
    assert [] + Lines(items) == Lines(items);
  }

  /** A file holding the lines of `items` reads back as their records. */
  lemma ReadFileBack(fs: FileSystem, path: string, relPath: string, items: seq<Record>)
    requires AllReadableBack(items)
    requires path in fs.files && fs.files[path] == JoinLines(Lines(items))
    ensures var o := FestVoxReader.ReadFile(fs, path, relPath);
      o.error == None && RecordsOf(o.yielded) == ReadBackRecords(Dirname(path), relPath, items)
  {
    var lines := Lines(items);
    ReadLinesBack(fs, Dirname(path), relPath, items);
    var content := fs.files[path];
    forall k | 0 <= k < |lines| ensures NoBreaks(lines[k]) {
      assert (lines + [""])[k] == lines[k];
    }
    JoinLinesNoCR(lines);
    TranslateNewlinesNoCR(content);
    assert ReadText(fs, path) == Ok(content);
    SplitBreaksJoinLines(lines);
    assert FestVoxReader.ReadFile(fs, path, relPath) == FestVoxReader.ReadLines(fs, Dirname(path), relPath, lines + [""]);
  }

  /**
   * Write-then-read: after `initialize()` and a batch whose items all go to `dir` and can be
   * read back, the "annotations.txt" of `dir`, read by the FestVox reader, yields one record
   * per item, in order, holding the item's transcript and its stem plus ".wav" as audio file.
   */
  lemma WriteThenRead(fs: FileSystem, items: seq<Record>, ps: seq<Placement>, dir: string, relPath: string)
    requires |items| == |ps|
    requires forall k :: 0 <= k < |items| ==> SubDir(ps[k]) == dir
    requires AllReadableBack(items)
    requires JoinPath(dir, AnnotationsFile) in fs.files
    requires fs.files[JoinPath(dir, AnnotationsFile)] == JoinLines(LinesOf(Accumulate(NoSplits(), Entries(items, ps)), dir))
    ensures var path := JoinPath(dir, AnnotationsFile);
      var o := FestVoxReader.ReadFile(fs, path, relPath);
      o.error == None && RecordsOf(o.yielded) == ReadBackRecords(Dirname(path), relPath, items)
  {
    var path := JoinPath(dir, AnnotationsFile);
    ManifestLines(items, ps, dir);
    ReadFileBack(fs, path, relPath, items);
  }
}

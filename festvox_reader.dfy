/**
 * The FestVox speech reader: each input is a text file of lines `( <file> "<transcription>" )`,
 * and every line becomes a speech record whose audio file sits next to the input.
 */
module FestVoxReader {
  import opened Wrappers
  import opened Text
  import opened Paths
  import opened Records
  import opened ReaderSupport

  const LineStart: string := "( "
  const LineEnd: string := "\" )"
  /** What separates the file name from the transcription. */
  const Separator: string := " \""
  const DefaultRelPath: string := "."

  /** The separator starts at index `j` of `m`. */
  predicate SeparatorAt(m: string, j: int) {
    0 <= j && j + 1 < |m| && m[j] == ' ' && m[j + 1] == '"'
  }

  predicate HasSeparator(t: string) {
    exists j | 0 <= j < |t| :: SeparatorAt(t, j)
  }

  /** The line a FestVox annotation file holds for one recording. */
  function FormatLine(fileName: string, transcription: string): string {
    LineStart + fileName + Separator + transcription + LineEnd
  }

  /** The start of the last separator in `m`, or -1 when there is none. */
  function LastSeparator(m: string): (k: int)
    ensures -1 <= k
    ensures k >= 0 ==> SeparatorAt(m, k)
    ensures forall j :: k < j ==> !SeparatorAt(m, j)
  {
    if |m| < 2 then -1
    else if m[|m| - 2] == ' ' && m[|m| - 1] == '"' then |m| - 2
    else
      var p := m[..|m| - 1];
      var k := LastSeparator(p);
      assert k >= 0 ==> SeparatorAt(m, k);
      assert forall j :: k < j ==> !SeparatorAt(m, j) by {
        forall j | k < j && SeparatorAt(m, j) ensures false {
          if j + 2 <= |p| {
            assert SeparatorAt(p, j);
          }
        }
      }
      k
  }

  /** The parts `ParseLine` cuts out of a line rebuild it, and the transcription holds no separator. */
  lemma SplitAtLastSeparator(line: string, m: string, k: int)
    requires '\n' !in line
    requires |line| >= |LineStart| + |LineEnd| && StartsWith(line, LineStart) && EndsWith(line, LineEnd)
    requires m == line[|LineStart|..|line| - |LineEnd|]
    requires SeparatorAt(m, k)
    requires forall j :: k < j ==> !SeparatorAt(m, j)
    ensures line == FormatLine(m[..k], m[k + 2..])
    ensures !HasSeparator(m[k + 2..])
    ensures '\n' !in m[..k] && '\n' !in m[k + 2..]
  {
    var f := m[..k];
    var t := m[k + 2..];
    assert m == f + Separator + t;
    assert line == LineStart + m + LineEnd;
    forall j | SeparatorAt(t, j)
      ensures false
    {
      assert SeparatorAt(m, k + 2 + j);
    }
  }

  /**
   * The pattern `^\( (?P<filename>.*) "(?P<transcription>.*)" \)$` on a stripped line: `.`
   * matches no line feed, and the greedy file name runs up to the last separator.
   */
  function ParseLine(line: string): Option<(string, string)> {
    if '\n' in line || |line| < |LineStart| + |LineEnd| || !StartsWith(line, LineStart) || !EndsWith(line, LineEnd) then None
    else
      var m := line[|LineStart|..|line| - |LineEnd|];
      var k := LastSeparator(m);
      if k < 0 then None else Some((m[..k], m[k + 2..]))
  }

  /** What `ParseLine` cuts out of a line rebuilds it, and the transcription holds no separator and no line feed. */
  lemma ParseLineSound(line: string)
    ensures var r := ParseLine(line);
      && (r.Some? ==> line == FormatLine(r.value.0, r.value.1))
      && (r.Some? ==> !HasSeparator(r.value.1))
      && (r.Some? ==> '\n' !in r.value.0 && '\n' !in r.value.1)
  {
    if ParseLine(line).Some? {
      var m := line[|LineStart|..|line| - |LineEnd|];
      SplitAtLastSeparator(line, m, LastSeparator(m));
    }
  }

  /** Every line a FestVox writer produces parses back into its two parts. */
  lemma ParseFormatLine(fileName: string, transcription: string)
    requires '\n' !in fileName && '\n' !in transcription
    requires !HasSeparator(transcription)
    ensures '\n' !in FormatLine(fileName, transcription)
    ensures ParseLine(FormatLine(fileName, transcription)) == Some((fileName, transcription))
  {
    var line := FormatLine(fileName, transcription);
    var m := fileName + Separator + transcription;
    FormatLineFrame(fileName, transcription);
    LastSeparatorOfLine(fileName, transcription);
    assert m[..|fileName|] == fileName;
    assert m[|fileName| + 2..] == transcription;
  }

  /** A formatted line holds no line feed, and between its opening and closing parts lies the file name, separator and transcription. */
  lemma FormatLineFrame(fileName: string, transcription: string)
    requires '\n' !in fileName && '\n' !in transcription
    ensures var line := FormatLine(fileName, transcription);
      && '\n' !in line
      && |line| >= |LineStart| + |LineEnd| && StartsWith(line, LineStart) && EndsWith(line, LineEnd)
      && line[|LineStart|..|line| - |LineEnd|] == fileName + Separator + transcription
  {
    var line := FormatLine(fileName, transcription);
    var m := fileName + Separator + transcription;
    assert line == LineStart + m + LineEnd;
    assert line[..|LineStart|] == LineStart;
    assert line[|line| - |LineEnd|..] == LineEnd;
    assert line[|LineStart|..|line| - |LineEnd|] == m;
  }

  /** The separator a FestVox writer puts after the file name is the last one on the line. */
  lemma LastSeparatorOfLine(fileName: string, transcription: string)
    requires !HasSeparator(transcription)
    ensures LastSeparator(fileName + Separator + transcription) == |fileName|
  {
    var m := fileName + Separator + transcription;
    var k := LastSeparator(m);
    assert SeparatorAt(m, |fileName|);
    if k != |fileName| {
      assert SeparatorAt(transcription, k - |fileName| - 2);
    }
  }

  /** `fn.lower().endswith(".wav")`, otherwise ".wav" appended. */
  function AudioFileName(fileName: string): (r: string)
    ensures LowerEndsWith(r, WavExtension)
    ensures LowerEndsWith(fileName, WavExtension) ==> r == fileName
    ensures !LowerEndsWith(fileName, WavExtension) ==> r == fileName + WavExtension
  {
    if LowerEndsWith(fileName, WavExtension) then fileName
    else
      WavExtensionIsLower();
      LowerEndsWithSuffix(fileName + WavExtension, WavExtension, WavExtension);
      fileName + WavExtension
  }

  /** ".wav" is already lower case. */
  lemma WavExtensionIsLower()
    ensures LowerEndsWith(WavExtension, WavExtension)
  {
    var w := WavExtension;
    assert w[1..][1..][1..][1..] == [];
    assert LowerString(w[1..][1..][1..]) == "v";
    assert LowerString(w[1..][1..]) == "av";
    assert LowerString(w[1..]) == "wav";
    assert LowerString(w) == w;
  }

  function BadLine(line: string): string {
    "Bad FestVox line: " + line
  }

  /** A line without line feed, in the brackets and quotes, with a separator inside, matches. */
  lemma ParseLineMatches(line: string)
    requires '\n' !in line && |line| >= |LineStart| + |LineEnd| && StartsWith(line, LineStart) && EndsWith(line, LineEnd)
    requires HasSeparator(line[|LineStart|..|line| - |LineEnd|])
    ensures ParseLine(line).Some?
  {
    var m := line[|LineStart|..|line| - |LineEnd|];
    var j :| 0 <= j < |m| && SeparatorAt(m, j);
    assert LastSeparator(m) >= j;
  }

  /** What one line of an annotation file amounts to. */
  datatype Line = Blank | Bad(line: string) | Entry(fileName: string, transcription: string)

  /** A line after `strip()`: blank, not matching the pattern, or a file name and a transcription. */
  function Classify(raw: string): Line {
    var line := Strip(raw);
    if line == "" then Blank
    else match ParseLine(line)
      case None => Bad(line)
      case Some((f, t)) => Entry(f, t)
  }

  /** Blank exactly when the stripped line is empty; a bad line keeps its text; an entry rebuilds the stripped line. */
  lemma ClassifyMeaning(raw: string)
    ensures var r := Classify(raw);
      && (r.Blank? <==> Strip(raw) == "")
      && (r.Bad? ==> r.line == Strip(raw))
      && (r.Entry? ==> Strip(raw) == FormatLine(r.fileName, r.transcription) && !HasSeparator(r.transcription))
      && (r.Entry? ==> '\n' !in r.transcription)
  {
    ParseLineSound(Strip(raw));
  }

  /** `os.path.join(basedir, rel_path, wav_filename)`. */
  function AudioPath(basedir: string, relPath: string, fileName: string): (p: string)
    ensures LowerEndsWith(p, WavExtension)
  {
    var p := JoinPath3(basedir, relPath, AudioFileName(fileName));
    LowerEndsWithSuffix(p, AudioFileName(fileName), WavExtension);
    p
  }

  /** The yields for one entry: its speech record, after a `None` when the audio file is missing. */
  function EntryYields(fs: FileSystem, basedir: string, relPath: string, fileName: string, transcription: string): seq<Option<Record>> {
    var audio := AudioPath(basedir, relPath, fileName);
    Emit(fs.Exists(audio), FromSource(Speech, Some(audio), None, Some(transcription)))
  }

  /**
   * The generator over the lines of one file: blank lines are skipped, a line that does not
   * match ends the generator with an error, and every other line yields its record.
   */
  function ReadLines(fs: FileSystem, basedir: string, relPath: string, lines: seq<string>): Outcome
  {
    if |lines| == 0 then Outcome([], None)
    else match Classify(lines[0])
      case Blank => ReadLines(fs, basedir, relPath, lines[1..])
      case Bad(line) => Outcome([], Some(BadLine(line)))
      case Entry(f, t) => Prepend(EntryYields(fs, basedir, relPath, f, t), ReadLines(fs, basedir, relPath, lines[1..]))
  }

  lemma ReadLinesUnfold(fs: FileSystem, basedir: string, relPath: string, lines: seq<string>, i: int)
    requires 0 <= i < |lines|
    ensures var line := Classify(lines[i]);
      var rest := ReadLines(fs, basedir, relPath, lines[i + 1..]);
      ReadLines(fs, basedir, relPath, lines[i..]) ==
        if line.Blank? then rest
        else if line.Bad? then Outcome([], Some(BadLine(line.line)))
        else Prepend(EntryYields(fs, basedir, relPath, line.fileName, line.transcription), rest)
  {
    assert lines[i..][0] == lines[i];
    assert lines[i..][1..] == lines[i + 1..];
  }

  /** What `read()` yields for the input file `input`. */
  function ReadFile(fs: FileSystem, input: string, relPath: string): Outcome {
    match ReadText(fs, input)
    case Err(e) => Outcome([], Some(e))
    case Ok(text) => ReadLines(fs, Dirname(input), relPath, SplitBreaks(text))
  }

  /** A record as the FestVox reader builds it. */
  predicate SpeechEntry(r: Record) {
    && r.kind == Speech
    && r.source.Some? && LowerEndsWith(r.source.value, WavExtension)
    && r.annotation.Some? && '\n' !in r.annotation.value
    && r.metadata.None?
  }

  predicate AllSpeechEntries(ys: seq<Option<Record>>) {
    forall k :: 0 <= k < |ys| && ys[k].Some? ==> SpeechEntry(ys[k].value)
  }

  /**
   * Every record the reader yields is a speech record for a ".wav" file in the directory
   * `relPath` relative to the input, annotated with a transcription of one line.
   */
  lemma {:induction false} ReadLinesRecords(fs: FileSystem, basedir: string, relPath: string, lines: seq<string>)
    ensures AllSpeechEntries(ReadLines(fs, basedir, relPath, lines).yielded)
  {
    if |lines| > 0 {
      var rest := ReadLines(fs, basedir, relPath, lines[1..]);
      ReadLinesRecords(fs, basedir, relPath, lines[1..]);
      var line := Classify(lines[0]);
      ClassifyMeaning(lines[0]);
      if line.Entry? {
        var ys := EntryYields(fs, basedir, relPath, line.fileName, line.transcription);
        EntryYieldsSpeech(fs, basedir, relPath, line.fileName, line.transcription);
        AllSpeechEntriesAppend(ys, rest.yielded);
        assert ReadLines(fs, basedir, relPath, lines) == Prepend(ys, rest);
      }
    }
  }

  lemma EntryYieldsSpeech(fs: FileSystem, basedir: string, relPath: string, fileName: string, transcription: string)
    requires '\n' !in transcription
    ensures AllSpeechEntries(EntryYields(fs, basedir, relPath, fileName, transcription))
  {
    var audio := AudioPath(basedir, relPath, fileName);
    var r := FromSource(Speech, Some(audio), None, Some(transcription));
    assert SpeechEntry(r);
    EmitSpeechEntry(fs.Exists(audio), r);
  }

  lemma EmitSpeechEntry(audioFound: bool, r: Record)
    requires SpeechEntry(r)
    ensures AllSpeechEntries(Emit(audioFound, r))
  {
  }

  lemma AllSpeechEntriesAppend(a: seq<Option<Record>>, b: seq<Option<Record>>)
    requires AllSpeechEntries(a) && AllSpeechEntries(b)
    ensures AllSpeechEntries(a + b)
  {
    forall k | 0 <= k < |a + b| && (a + b)[k].Some? ensures SpeechEntry((a + b)[k].value) {
      if k >= |a| {
        assert (a + b)[k] == b[k - |a|];
      }
    }
  }

  /** The index of the first line that does not match the pattern, if any. */
  function FirstBad(lines: seq<string>): (i: int)
    ensures -1 <= i < |lines|
  {
    if |lines| == 0 then -1
    else if Classify(lines[0]).Bad? then 0
    else
      var i := FirstBad(lines[1..]);
      if i < 0 then -1 else i + 1
  }

  /** `FirstBad` names a line that does not match, and every line before it matches or is blank. */
  lemma {:induction false} FirstBadSpec(lines: seq<string>)
    ensures var i := FirstBad(lines);
      && (i >= 0 ==> Classify(lines[i]).Bad?)
      && (forall k :: 0 <= k < |lines| && (i < 0 || k < i) ==> !Classify(lines[k]).Bad?)
  {
    if |lines| > 0 && !Classify(lines[0]).Bad? {
      var rest := lines[1..];
      FirstBadSpec(rest);
      var i := FirstBad(lines);
      forall k | 0 <= k < |lines| && (i < 0 || k < i)
        ensures !Classify(lines[k]).Bad?
      {
        if k > 0 {
          assert lines[k] == rest[k - 1];
        }
      }
    }
  }

  /** Reading a file fails exactly when one of its lines does not match, and names the first such line. */
  lemma {:induction false} ReadLinesError(fs: FileSystem, basedir: string, relPath: string, lines: seq<string>)
    ensures var o := ReadLines(fs, basedir, relPath, lines);
      var i := FirstBad(lines);
      && (o.error.Some? <==> i >= 0)
      && (i >= 0 ==> Classify(lines[i]).Bad? && o.error == Some(BadLine(Classify(lines[i]).line)))
  {
    if |lines| > 0 {
      var c := Classify(lines[0]);
      if c.Bad? {
        assert ReadLines(fs, basedir, relPath, lines) == Outcome([], Some(BadLine(c.line)));
        assert FirstBad(lines) == 0;
      } else {
        var rest := lines[1..];
        ReadLinesError(fs, basedir, relPath, rest);
        assert ReadLines(fs, basedir, relPath, lines).error == ReadLines(fs, basedir, relPath, rest).error;
        var j := FirstBad(rest);
        assert FirstBad(lines) == if j < 0 then -1 else j + 1;
        if j >= 0 {
          assert lines[j + 1] == rest[j];
        }
      }
    }
  }

  class FestVoxSpeechReader {
    /** `--rel_path`: where the audio files are, relative to each input file. */
    var relPath: Option<string>
    /** The input files not read yet. */
    var inputs: seq<string>
    var currentInput: Option<string>

    constructor(relPath: Option<string>)
      ensures this.relPath == relPath && inputs == [] && currentInput == None
    {
      this.relPath := relPath;
      inputs := [];
      currentInput := None;
    }

    /**
     * `initialize()`: `located` is what `locate_files` found for the input options; an empty
     * result raises before the relative path gets its default.
     */
    method Initialize(located: seq<string>) returns (error: Option<string>)
      modifies this
      ensures error.Some? <==> located == []
      ensures error == None ==> inputs == located && relPath == Some(old(relPath).GetOr(DefaultRelPath))
      ensures error.Some? ==> error == Some(NoInputs) && inputs == old(inputs) && relPath == old(relPath)
      ensures currentInput == old(currentInput)
    {
      if located == [] {
        return Some(NoInputs);
      }
      inputs := located;
      if relPath.None? {
        relPath := Some(DefaultRelPath);
      }
      error := None;
    }

    /** `read()`: takes the next input file and yields the records of its lines. */
    method Read(fs: FileSystem) returns (o: Outcome)
      requires relPath.Some?
      modifies this
      ensures old(inputs) == [] ==> o == Outcome([], Some(EmptyPop)) && inputs == [] && currentInput == old(currentInput)
      ensures relPath == old(relPath)
      ensures old(inputs) != [] ==>
        && inputs == old(inputs)[1..] && currentInput == Some(old(inputs)[0])
        && o == ReadFile(fs, old(inputs)[0], old(relPath).value)
    {
      if inputs == [] {
        return Outcome([], Some(EmptyPop));
      }
      var input := inputs[0];
      inputs := inputs[1..];
      currentInput := Some(input);
      var text := ReadText(fs, input);
      if text.Err? {
        return Outcome([], Some(text.msg));
      }
      o := ReadLinesOf(fs, Dirname(input), relPath.value, SplitBreaks(text.value));
    }

    /** `has_finished()`: no input file is left. */
    predicate HasFinished()
      reads this
    {
      inputs == []
    }
  }

  /** What is left to read from line `i` on, after `yielded`. */
  predicate ReadFrom(fs: FileSystem, basedir: string, relPath: string, lines: seq<string>, i: nat, yielded: seq<Option<Record>>)
    requires i <= |lines|
  {
    ReadLines(fs, basedir, relPath, lines) == Prepend(yielded, ReadLines(fs, basedir, relPath, lines[i..]))
  }

  /** One line of the loop of `read()` that does not end it: `added` is what the line yields. */
  lemma ReadLinesStep(fs: FileSystem, basedir: string, relPath: string, lines: seq<string>, i: nat,
                      yielded: seq<Option<Record>>, line: Line, added: seq<Option<Record>>)
    requires i < |lines| && line == Classify(lines[i]) && !line.Bad?
    requires ReadFrom(fs, basedir, relPath, lines, i, yielded)
    requires added == if line.Blank? then [] else EntryYields(fs, basedir, relPath, line.fileName, line.transcription)
    ensures ReadFrom(fs, basedir, relPath, lines, i + 1, yielded + added)
  {
    ReadLinesUnfold(fs, basedir, relPath, lines, i);
    var rest := ReadLines(fs, basedir, relPath, lines[i + 1..]);
    var left := ReadLines(fs, basedir, relPath, lines[i..]);
    if line.Blank? {
      assert left == rest == Prepend(added, rest);
    } else {
      assert left == Prepend(added, rest);
    }
    PrependStep(ReadLines(fs, basedir, relPath, lines), yielded, left, added, rest);
  }

  /** The line of the loop of `read()` that does not match ends it with an error. */
  lemma ReadLinesStop(fs: FileSystem, basedir: string, relPath: string, lines: seq<string>, i: nat,
                      yielded: seq<Option<Record>>, line: Line)
    requires i < |lines| && line == Classify(lines[i]) && line.Bad?
    requires ReadFrom(fs, basedir, relPath, lines, i, yielded)
    ensures ReadLines(fs, basedir, relPath, lines) == Outcome(yielded, Some(BadLine(line.line)))
  {
    ReadLinesUnfold(fs, basedir, relPath, lines, i);
    assert yielded + [] == yielded;
  }

  lemma ReadLinesEnd(fs: FileSystem, basedir: string, relPath: string, lines: seq<string>, yielded: seq<Option<Record>>)
    requires ReadFrom(fs, basedir, relPath, lines, |lines|, yielded)
    ensures ReadLines(fs, basedir, relPath, lines) == Outcome(yielded, None)
  {
    assert lines[|lines|..] == [];
    assert yielded + [] == yielded;
  }

  /** The loop of `read()` over the lines of one file. */
  method ReadLinesOf(fs: FileSystem, basedir: string, relPath: string, lines: seq<string>) returns (o: Outcome)
    ensures o == ReadLines(fs, basedir, relPath, lines)
  {
    var yielded: seq<Option<Record>> := [];
    var i := 0;
    assert lines[0..] == lines;
    while i < |lines|
      invariant 0 <= i <= |lines|
      invariant ReadFrom(fs, basedir, relPath, lines, i, yielded)
    {
      var line := Classify(lines[i]);
      if line.Bad? {
        ReadLinesStop(fs, basedir, relPath, lines, i, yielded, line);
        return Outcome(yielded, Some(BadLine(line.line)));
      }
      var added := [];
      if line.Entry? {
        added := EntryYields(fs, basedir, relPath, line.fileName, line.transcription);
      }
      ReadLinesStep(fs, basedir, relPath, lines, i, yielded, line, added);
      yielded := yielded + added;
      i := i + 1;
    }
    ReadLinesEnd(fs, basedir, relPath, lines, yielded);
    o := Outcome(yielded, None);
  }
}

/**
 * The classification reader for plain-text labels: each input is a ".txt" file holding one
 * label, with the audio file next to it.
 */
module ClassificationTxtReader {
  import opened Wrappers
  import opened Text
  import opened Paths
  import opened Records
  import opened Utils
  import opened ReaderSupport
  import SpeechTxtReader

  const DefaultRelPath: string := "."

  /** What `read()` yields for the input file `input`. */
  function ReadFile(fs: FileSystem, input: string, relPath: string): Outcome {
    match SpeechTxtReader.StrippedText(fs, input)
    case Err(e) => Outcome([], Some(e))
    case Ok(classLabel) =>
      var audio := AudioLocation(input, Some(relPath), None, fs);
      Outcome(Emit(audio.Some?, FromSource(Classification, audio, None, Some(classLabel))), None)
  }

  /**
   * Reading an existing label file yields exactly one classification record: the stripped
   * label, no metadata, and the first audio file found (or none, after a `None`).
   */
  lemma ReadFileRecord(fs: FileSystem, input: string, relPath: string)
    requires fs.Exists(input)
    ensures var o := ReadFile(fs, input, relPath);
      var audio := AudioLocation(input, Some(relPath), None, fs);
      && o.error == None
      && RecordsOf(o.yielded) == [FromSource(Classification, audio, None, Some(Strip(TranslateNewlines(fs.files[input]))))]
      && (o.yielded[0] == None <==> audio == None)
  {
    var audio := AudioLocation(input, Some(relPath), None, fs);
    RecordsOfEmit(audio.Some?, FromSource(Classification, audio, None, Some(Strip(TranslateNewlines(fs.files[input])))));
  }

  class ClassificationTxtReader {
    var relPath: Option<string>
    /** The input files not read yet. */
    var inputs: seq<string>
    var currentInput: Option<string>

    constructor(relPath: Option<string>)
      ensures this.relPath == relPath && inputs == [] && currentInput == None
    {
      this.relPath := relPath;
      inputs := [];
      currentInput := None;
    }

    /**
     * `initialize()`: `located` is what `locate_files` found; an empty result raises before
     * the relative path gets its default.
     */
    method Initialize(located: seq<string>) returns (error: Option<string>)
      modifies this
      ensures error.Some? <==> located == []
      ensures error == None ==> inputs == located && relPath == Some(old(relPath).GetOr(DefaultRelPath))
      ensures error.Some? ==> error == Some(NoInputs) && inputs == old(inputs) && relPath == old(relPath)
      ensures currentInput == old(currentInput)
    {
      if located == [] {
        return Some(NoInputs);
      }
      inputs := located;
      if relPath.None? {
        relPath := Some(DefaultRelPath);
      }
      error := None;
    }

    /** `read()`: takes the next input file and yields its record. */
    method Read(fs: FileSystem) returns (o: Outcome)
      requires relPath.Some?
      modifies this
      ensures relPath == old(relPath)
      ensures old(inputs) == [] ==> o == Outcome([], Some(EmptyPop)) && inputs == [] && currentInput == old(currentInput)
      ensures old(inputs) != [] ==>
        && inputs == old(inputs)[1..] && currentInput == Some(old(inputs)[0])
        && o == ReadFile(fs, old(inputs)[0], old(relPath).value)
    {
      if inputs == [] {
        return Outcome([], Some(EmptyPop));
      }
      var input := inputs[0];
      inputs := inputs[1..];
      currentInput := Some(input);
      var classLabel := SpeechTxtReader.StrippedText(fs, input);
      if classLabel.Err? {
        return Outcome([], Some(classLabel.msg));
      }
      var audio := LocateAudio(input, relPath, None, fs);
      o := Outcome(Emit(audio.Some?, FromSource(Classification, audio, None, Some(classLabel.value))), None);
    }

    /** `has_finished()`: no input file is left. */
    predicate HasFinished()
      reads this
    {
      inputs == []
    }
  }
}

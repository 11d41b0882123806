/**
 * The speech reader for plain-text transcripts: each input is a ".txt" file holding one
 * transcript, with the audio file next to it and optionally a speaker file beside it.
 */
module SpeechTxtReader {
  import opened Wrappers
  import opened Text
  import opened Paths
  import opened Records
  import opened Utils
  import opened ReaderSupport

  const DefaultRelPath: string := "."
  const DefaultSpeakerKey: string := "speaker"

  /** `"".join(open(path).readlines()).strip()`: the whole text of a file, stripped. */
  function StrippedText(fs: FileSystem, path: string): (r: Result<string>)
    ensures r.Ok? <==> fs.Exists(path)
    ensures r.Ok? ==> r.value == [] || (!IsSpace(r.value[0]) && !IsSpace(r.value[|r.value| - 1]))
  {
    match ReadText(fs, path)
    case Ok(text) => Ok(Strip(text))
    case Err(e) => Err(e)
  }

  /** Where the speaker of `input` is stored: the input without its extension, plus the suffix. */
  function SpeakerPath(input: string, speakerSuffix: string): (p: string)
    ensures p == Splitext(input).0 + speakerSuffix
    ensures EndsWith(p, speakerSuffix)
  {
    var p := Splitext(input).0 + speakerSuffix;
    assert p[|p| - |speakerSuffix|..] == speakerSuffix;
    p
  }

  /** The speaker read for `input`: only with a suffix configured and its file present. */
  function Speaker(fs: FileSystem, input: string, speakerSuffix: Option<string>): (s: Option<string>)
    ensures s.Some? <==> speakerSuffix.Some? && fs.Exists(SpeakerPath(input, speakerSuffix.value))
    ensures s.Some? ==> StrippedText(fs, SpeakerPath(input, speakerSuffix.value)) == Ok(s.value)
  {
    if speakerSuffix.None? then None
    else
      var path := SpeakerPath(input, speakerSuffix.value);
      if fs.Exists(path) then Some(StrippedText(fs, path).value) else None
  }

  /** `{speaker_key: speaker}` when a speaker was read; no metadata otherwise. */
  function SpeakerMetadata(speaker: Option<string>, speakerKey: string): (m: Option<Metadata>)
    ensures m.Some? <==> speaker.Some?
    ensures m.Some? ==> m.value.Keys == {speakerKey} && m.value[speakerKey] == Str(speaker.value)
  {
    if speaker.Some? then Some(map[speakerKey := Str(speaker.value)]) else None
  }

  /** What `read()` yields for the input file `input`. */
  function ReadFile(fs: FileSystem, input: string, relPath: string, speakerSuffix: Option<string>, speakerKey: string): Outcome {
    match StrippedText(fs, input)
    case Err(e) => Outcome([], Some(e))
    case Ok(transcript) =>
      var audio := AudioLocation(input, Some(relPath), None, fs);
      var meta := SpeakerMetadata(Speaker(fs, input, speakerSuffix), speakerKey);
      Outcome(Emit(audio.Some?, FromSource(Speech, audio, meta, Some(transcript))), None)
  }

  /**
   * Reading an existing transcript file yields exactly one record: the stripped transcript,
   * the first audio file found (or none, after a `None`), and the speaker as metadata when
   * its file exists.
   */
  lemma ReadFileRecord(fs: FileSystem, input: string, relPath: string, speakerSuffix: Option<string>, speakerKey: string)
    requires fs.Exists(input)
    ensures var o := ReadFile(fs, input, relPath, speakerSuffix, speakerKey);
      var audio := AudioLocation(input, Some(relPath), None, fs);
      && o.error == None
      && RecordsOf(o.yielded) == [FromSource(Speech, audio, SpeakerMetadata(Speaker(fs, input, speakerSuffix), speakerKey),
                                             Some(Strip(TranslateNewlines(fs.files[input]))))]
      && (o.yielded[0] == None <==> audio == None)
  {
    var audio := AudioLocation(input, Some(relPath), None, fs);
    var meta := SpeakerMetadata(Speaker(fs, input, speakerSuffix), speakerKey);
    RecordsOfEmit(audio.Some?, FromSource(Speech, audio, meta, Some(Strip(TranslateNewlines(fs.files[input])))));
  }

  class SpeechTxtReader {
    var relPath: Option<string>
    var speakerKey: Option<string>
    /** `--speaker_suffix`: no speaker files are consulted when it is `None`. */
    var speakerSuffix: Option<string>
    /** The input files not read yet; `None` until the first `read()` locates them. */
    var inputs: Option<seq<string>>
    var currentInput: Option<string>

    constructor(relPath: Option<string>, speakerKey: Option<string>, speakerSuffix: Option<string>)
      ensures this.relPath == relPath && this.speakerKey == speakerKey && this.speakerSuffix == speakerSuffix
      ensures inputs == None && currentInput == None
    {
      this.relPath := relPath;
      this.speakerKey := speakerKey;
      this.speakerSuffix := speakerSuffix;
      inputs := None;
      currentInput := None;
    }

    /** `initialize()`: inputs are located lazily; the relative path and speaker key get their defaults. */
    method Initialize()
      modifies this
      ensures inputs == None
      ensures relPath == Some(old(relPath).GetOr(DefaultRelPath))
      ensures speakerKey == Some(old(speakerKey).GetOr(DefaultSpeakerKey))
      ensures speakerSuffix == old(speakerSuffix) && currentInput == old(currentInput)
    {
      inputs := None;
      if relPath.None? {
        relPath := Some(DefaultRelPath);
      }
      if speakerKey.None? {
        speakerKey := Some(DefaultSpeakerKey);
      }
    }

    /**
     * `read()`: on the first call the inputs are what `locate_files` found (`located`), an
     * empty result raising; then the next input file is taken and its record is yielded.
     */
    method Read(fs: FileSystem, located: seq<string>) returns (o: Outcome)
      requires relPath.Some? && speakerKey.Some?
      modifies this
      ensures relPath == old(relPath) && speakerKey == old(speakerKey) && speakerSuffix == old(speakerSuffix)
      ensures old(inputs).None? && located == [] ==>
        o == Outcome([], Some(NoInputs)) && inputs == None && currentInput == old(currentInput)
      ensures var pending := if old(inputs).Some? then old(inputs).value else located;
        (old(inputs).Some? || located != []) ==>
          if pending == [] then
            o == Outcome([], Some(EmptyPop)) && inputs == Some([]) && currentInput == old(currentInput)
          else
            && inputs == Some(pending[1..]) && currentInput == Some(pending[0])
            && o == ReadFile(fs, pending[0], old(relPath).value, old(speakerSuffix), old(speakerKey).value)
    {
      if inputs.None? {
        if located == [] {
          return Outcome([], Some(NoInputs));
        }
        inputs := Some(located);
      }
      var pending := inputs.value;
      if pending == [] {
        return Outcome([], Some(EmptyPop));
      }
      var input := pending[0];
      inputs := Some(pending[1..]);
      currentInput := Some(input);
      var transcript := StrippedText(fs, input);
      if transcript.Err? {
        return Outcome([], Some(transcript.msg));
      }
      var audio := LocateAudio(input, relPath, None, fs);
      var speaker := Speaker(fs, input, speakerSuffix);
      var result := FromSource(Speech, audio, SpeakerMetadata(speaker, speakerKey.value), Some(transcript.value));
      o := Outcome(Emit(audio.Some?, result), None);
    }

    /** `has_finished()`: the inputs have been located and all of them read. */
    predicate HasFinished()
      reads this
    {
      inputs == Some([])
    }
  }
}

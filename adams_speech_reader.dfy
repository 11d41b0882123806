/** The speech reader for ADAMS ".report" files, each with its audio file next to it. */
module AdamsSpeechReader {
  import opened Wrappers
  import opened Paths
  import opened Records
  import opened ReaderSupport
  import opened AdamsReport

  const NoFieldError: string := "No transcript field defined!"

  class AdamsSpeechReader {
    var transcriptField: Option<string>
    /** The report files not read yet. */
    var inputs: seq<string>
    var currentInput: Option<string>

    constructor(transcriptField: Option<string>)
      ensures this.transcriptField == transcriptField && inputs == [] && currentInput == None
    {
      this.transcriptField := transcriptField;
      inputs := [];
      currentInput := None;
    }

    /**
     * `initialize()`: the annotation field must be configured; `located` is what
     * `locate_files` found, and an empty result raises.
     */
    method Initialize(located: seq<string>) returns (error: Option<string>)
      modifies this
      ensures transcriptField.None? ==> error == Some(NoFieldError)
      ensures transcriptField.Some? && located == [] ==> error == Some(NoInputs)
      ensures error == None <==> transcriptField.Some? && located != []
      ensures error == None ==> inputs == located
      ensures error.Some? ==> inputs == old(inputs)
      ensures transcriptField == old(transcriptField) && currentInput == old(currentInput)
    {
      if transcriptField.None? {
        return Some(NoFieldError);
      }
      if located == [] {
        return Some(NoInputs);
      }
      inputs := located;
      error := None;
    }

    /** `read()`: takes the next report and yields its record. */
    method Read(reports: Reports, fs: FileSystem) returns (o: Outcome)
      requires transcriptField.Some?
      modifies this
      ensures transcriptField == old(transcriptField)
      ensures old(inputs) == [] ==> o == Outcome([], Some(EmptyPop)) && inputs == [] && currentInput == old(currentInput)
      ensures old(inputs) != [] ==>
        && inputs == old(inputs)[1..] && currentInput == Some(old(inputs)[0])
        && o == ReadFile(Speech, reports, fs, old(inputs)[0], old(transcriptField).value)
    {
      if inputs == [] {
        return Outcome([], Some(EmptyPop));
      }
      var input := inputs[0];
      inputs := inputs[1..];
      currentInput := Some(input);
      o := ReadReport(Speech, reports, fs, input, transcriptField.value);
    }

    /** `has_finished()`: no report is left. */
    predicate HasFinished()
      reads this
    {
      inputs == []
    }
  }
}

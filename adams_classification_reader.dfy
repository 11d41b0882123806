/** The classification reader for ADAMS ".report" files, each with its audio file next to it. */
module AdamsClassificationReader {
  import opened Wrappers
  import opened Paths
  import opened Records
  import opened ReaderSupport
  import opened AdamsReport

  const NoFieldError: string := "No class field defined!"

  class AdamsClassificationReader {
    var classField: Option<string>
    /** The report files not read yet. */
    var inputs: seq<string>
    var currentInput: Option<string>

    constructor(classField: Option<string>)
      ensures this.classField == classField && inputs == [] && currentInput == None
    {
      this.classField := classField;
      inputs := [];
      currentInput := None;
    }

    /**
     * `initialize()`: the annotation field must be configured; `located` is what
     * `locate_files` found, and an empty result raises.
     */
    method Initialize(located: seq<string>) returns (error: Option<string>)
      modifies this
      ensures classField.None? ==> error == Some(NoFieldError)
      ensures classField.Some? && located == [] ==> error == Some(NoInputs)
      ensures error == None <==> classField.Some? && located != []
      ensures error == None ==> inputs == located
      ensures error.Some? ==> inputs == old(inputs)
      ensures classField == old(classField) && currentInput == old(currentInput)
    {
      if classField.None? {
        return Some(NoFieldError);
      }
      if located == [] {
        return Some(NoInputs);
      }
      inputs := located;
      error := None;
    }

    /** `read()`: takes the next report and yields its record. */
    method Read(reports: Reports, fs: FileSystem) returns (o: Outcome)
      requires classField.Some?
      modifies this
      ensures classField == old(classField)
      ensures old(inputs) == [] ==> o == Outcome([], Some(EmptyPop)) && inputs == [] && currentInput == old(currentInput)
      ensures old(inputs) != [] ==>
        && inputs == old(inputs)[1..] && currentInput == Some(old(inputs)[0])
        && o == ReadFile(Classification, reports, fs, old(inputs)[0], old(classField).value)
    {
      if inputs == [] {
        return Outcome([], Some(EmptyPop));
      }
      var input := inputs[0];
      inputs := inputs[1..];
      currentInput := Some(input);
      o := ReadReport(Classification, reports, fs, input, classField.value);
    }

    /** `has_finished()`: no report is left. */
    predicate HasFinished()
      reads this
    {
      inputs == []
    }
  }
}

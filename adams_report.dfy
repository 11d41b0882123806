/**
 * ADAMS ".report" files as both ADAMS readers see them: an ordered collection of fields,
 * each with the name a lookup uses, its parseable form (name plus type) and its value.
 * Parsing the file itself is done by an external library and is not part of this model.
 */
module AdamsReport {
  import opened Wrappers
  import opened Paths
  import opened Records
  import opened Utils
  import opened ReaderSupport

  datatype Field = Field(parseable: string, name: string, value: Value)

  datatype Report = Report(fields: seq<Field>)

  /** The parsed report files: a path missing from the map does not exist. */
  type Reports = map<string, Report>

  /** `report.has_value(name)`. */
  predicate HasValue(report: Report, name: string) {
    exists i | 0 <= i < |report.fields| :: report.fields[i].name == name
  }

  /** The value of the field called `name`; a later field of that name replaces an earlier one. */
  function LastValue(fields: seq<Field>, name: string): (v: Option<Value>)
    ensures v.Some? <==> exists i | 0 <= i < |fields| :: fields[i].name == name
    ensures v.Some? ==> exists i | 0 <= i < |fields| ::
      fields[i].name == name && fields[i].value == v.value && forall j | i < j < |fields| :: fields[j].name != name
  {
    if fields == [] then None
    else if fields[|fields| - 1].name == name then Some(fields[|fields| - 1].value)
    else
      var v := LastValue(fields[..|fields| - 1], name);
      assert forall i | 0 <= i < |fields| - 1 :: fields[..|fields| - 1][i] == fields[i];
      v
  }

  /** `report.get_string_value(name)`, for a field that is present. */
  function GetStringValue(report: Report, name: string): (s: string)
    requires HasValue(report, name)
    ensures exists i | 0 <= i < |report.fields| :: report.fields[i].name == name && s == ValueText(report.fields[i].value)
  {
    ValueText(LastValue(report.fields, name).value)
  }

  /** The dictionary built from the fields in order, `meta[field.to_parseable_string()] = value`. */
  function FieldMap(fields: seq<Field>): Metadata {
    if fields == [] then map[]
    else FieldMap(fields[..|fields| - 1])[fields[|fields| - 1].parseable := fields[|fields| - 1].value]
  }

  /** The metadata holds exactly one key per field's parseable name. */
  lemma {:induction false} FieldMapKeys(fields: seq<Field>)
    ensures FieldMap(fields).Keys == set i | 0 <= i < |fields| :: fields[i].parseable
  {
    if fields != [] {
      var init := fields[..|fields| - 1];
      FieldMapKeys(init);
      assert forall i | 0 <= i < |init| :: init[i] == fields[i];
      var last := |fields| - 1;
      assert (set i | 0 <= i < |fields| :: fields[i].parseable)
          == (set i | 0 <= i < |init| :: init[i].parseable) + {fields[last].parseable};
    }
  }

  /** Each key maps to the value of the last field with that parseable name. */
  lemma {:induction false} FieldMapLast(fields: seq<Field>, i: nat)
    requires i < |fields|
    requires forall j | i < j < |fields| :: fields[j].parseable != fields[i].parseable
    ensures fields[i].parseable in FieldMap(fields)
    ensures FieldMap(fields)[fields[i].parseable] == fields[i].value
  {
    if i < |fields| - 1 {
      var init := fields[..|fields| - 1];
      assert forall j | 0 <= j < |init| :: init[j] == fields[j];
      FieldMapLast(init, i);
    }
  }

  /** The metadata of a report: `None` when it has no fields. */
  function ReportMetadata(report: Report): (m: Option<Metadata>)
    ensures m.None? <==> report.fields == []
  {
    if report.fields == [] then None
    else
      assert FieldMap(report.fields).Keys != {} by {
        FieldMapKeys(report.fields);
        assert report.fields[0].parseable in FieldMap(report.fields).Keys;
      }
      Some(FieldMap(report.fields))
  }

  /** The loop over the report's fields that builds the metadata dictionary. */
  method CollectMetadata(report: Report) returns (meta: Option<Metadata>)
    ensures meta == ReportMetadata(report)
  {
    var m: Metadata := map[];
    var i := 0;
    while i < |report.fields|
      invariant 0 <= i <= |report.fields|
      invariant m == FieldMap(report.fields[..i])
    {
      assert report.fields[..i + 1][..i] == report.fields[..i];
      m := m[report.fields[i].parseable := report.fields[i].value];
      i := i + 1;
    }
    assert report.fields[..i] == report.fields;
    if |m| == 0 {
      meta := None;
    } else {
      meta := Some(m);
    }
  }

  /** The annotation read from `field`: its string value when present, none otherwise. */
  function Annotation(report: Report, field: string): (a: Option<string>)
    ensures a.Some? <==> HasValue(report, field)
  {
    if HasValue(report, field) then Some(GetStringValue(report, field)) else None
  }

  /** What `read()` yields for the report file `input`, the annotation taken from `field`. */
  function ReadFile(kind: Kind, reports: Reports, fs: FileSystem, input: string, field: string): Outcome {
    if input !in reports then Outcome([], Some(MissingFile(input)))
    else
      var report := reports[input];
      var audio := AudioLocation(input, None, None, fs);
      Outcome(Emit(audio.Some?, FromSource(kind, audio, ReportMetadata(report), Annotation(report, field))), None)
  }

  /**
   * A report that exists yields exactly one record of the reader's kind: its fields as
   * metadata, the annotation field when present, and the audio file found next to the
   * report without a relative path (a `None` first when there is none).
   */
  lemma ReadFileRecord(kind: Kind, reports: Reports, fs: FileSystem, input: string, field: string)
    requires input in reports
    ensures var o := ReadFile(kind, reports, fs, input, field);
      var audio := AudioLocation(input, None, None, fs);
      && o.error == None
      && RecordsOf(o.yielded) == [FromSource(kind, audio, ReportMetadata(reports[input]), Annotation(reports[input], field))]
      && (o.yielded[0] == None <==> audio == None)
  {
    var report := reports[input];
    var audio := AudioLocation(input, None, None, fs);
    RecordsOfEmit(audio.Some?, FromSource(kind, audio, ReportMetadata(report), Annotation(report, field)));
  }

  /** The loop body of both ADAMS readers once the next report has been taken. */
  method ReadReport(kind: Kind, reports: Reports, fs: FileSystem, input: string, field: string) returns (o: Outcome)
    ensures o == ReadFile(kind, reports, fs, input, field)
  {
    if input !in reports {
      return Outcome([], Some(MissingFile(input)));
    }
    var report := reports[input];
    var meta := CollectMetadata(report);
    var audio := LocateAudio(input, None, None, fs);
    var annotation := if HasValue(report, field) then Some(GetStringValue(report, field)) else None;
    o := Outcome(Emit(audio.Some?, FromSource(kind, audio, meta, annotation)), None);
  }
}

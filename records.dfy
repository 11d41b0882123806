/**
 * One audio record and its two annotated variants (classification label, speech
 * transcript), plus the registry that maps a data-type code to a variant.
 */
module Records {
  import opened Wrappers
  import opened Text
  import opened Paths

  /** The concrete record class: `AudioClassificationData`, `SpeechData` or the plain `AudioData`. */
  datatype Kind = Classification | Speech | Base

  datatype AudioFormat = MP3 | WAV

  /** `FORMAT_EXTENSIONS[FORMAT_WAV]`. */
  const WavExtension: string := ".wav"

  /**
   * A metadata value: a string, Python's None, or any other scalar, carried with the
   * text `str()` gives for it.
   */
  datatype Value = Str(s: string) | Nil | Other(text: string)

  /** Python's `str(v)`. */
  function ValueText(v: Value): string {
    match v
    case Str(s) => s
    case Nil => "None"
    case Other(t) => t
  }

  type Metadata = map<string, Value>

  /** Decoded audio: one sample sequence per channel. */
  datatype Samples = Samples(channels: seq<seq<real>>)

  /** Raw bytes as read from or written to a file. */
  newtype byte = x: int | 0 <= x < 256

  /**
   * One audio item. `audio` stands for what the record's `audio` property yields; `format`,
   * `duration`, `sampleRate`, `metadata` and `annotation` are what the constructor was given.
   */
  datatype Record = Record(
    kind: Kind,
    source: Option<string>,
    audioName: string,
    data: Option<seq<byte>>,
    audio: Option<Samples>,
    format: Option<AudioFormat>,
    duration: Option<real>,
    sampleRate: Option<int>,
    metadata: Option<Metadata>,
    annotation: Option<string>)

  /** The name a record gets: the given one, else the file name of its source, else "". */
  function NameFor(source: Option<string>, audioName: Option<string>): string {
    if audioName.Some? then audioName.value
    else if source.Some? then Basename(source.value)
    else ""
  }

  /**
   * The constructor of every record class: the subclasses forward each argument unchanged
   * to `AudioData.__init__`.
   */
  function MakeRecord(kind: Kind, source: Option<string>, audioName: Option<string>, data: Option<seq<byte>>,
                      audio: Option<Samples>, format: Option<AudioFormat>, duration: Option<real>,
                      sampleRate: Option<int>, metadata: Option<Metadata>, annotation: Option<string>): (r: Record)
    ensures r.kind == kind && r.source == source && r.data == data && r.audio == audio
    ensures r.format == format && r.duration == duration && r.sampleRate == sampleRate
    ensures r.metadata == metadata && r.annotation == annotation
    ensures audioName.Some? ==> r.audioName == audioName.value
    ensures audioName.None? && source.None? ==> r.audioName == ""
  {
    Record(kind, source, NameFor(source, audioName), data, audio, format, duration, sampleRate, metadata, annotation)
  }

  /** A record given only its source is named after the source's file name. */
  lemma NamedAfterSource(kind: Kind, source: string, metadata: Option<Metadata>, annotation: Option<string>)
    ensures FromSource(kind, Some(source), metadata, annotation).audioName == Basename(source)
    ensures EndsWith(source, FromSource(kind, Some(source), metadata, annotation).audioName)
  {
  }

  /** A record that only knows where it came from, as the readers build them. */
  function FromSource(kind: Kind, source: Option<string>, metadata: Option<Metadata>, annotation: Option<string>): Record {
    MakeRecord(kind, source, None, None, None, None, None, None, metadata, annotation)
  }

  /** `has_annotation()`: an annotation is present and not empty. */
  predicate HasAnnotation(r: Record) {
    r.annotation.Some? && |r.annotation.value| > 0
  }

  /** `is_mono`: the decoded audio has a single channel. */
  predicate IsMono(r: Record) {
    r.audio.Some? && |r.audio.value.channels| == 1
  }

  /** The one key `_annotation_to_dict` uses for each annotated variant. */
  function AnnotationKey(kind: Kind): Option<string> {
    match kind
    case Classification => Some("label")
    case Speech => Some("transcript")
    case Base => None
  }

  /**
   * `_annotation_to_dict()`: a one-entry dictionary holding the annotation under "label"
   * (classification) or "transcript" (speech). The plain record's version is not part of this model.
   */
  function AnnotationToDict(r: Record): (d: Option<map<string, Option<string>>>)
    ensures d.Some? <==> r.kind != Base
    ensures r.kind == Classification ==> d == Some(map["label" := r.annotation])
    ensures r.kind == Speech ==> d == Some(map["transcript" := r.annotation])
  {
    match AnnotationKey(r.kind)
    case Some(key) => Some(map[key := r.annotation])
    case None => None
  }

  /** A value offered as an annotation, before its type is checked. */
  datatype AnnotationValue = TextValue(s: string) | OtherValue(typeName: string)

  /**
   * `_is_correct_annotation_type(ann)`: a classification label must be a string; speech
   * records inherit the base check, which accepts anything.
   */
  function CheckAnnotationType(kind: Kind, ann: AnnotationValue): (r: Result<()>)
    ensures r.Ok? <==> (kind != Classification || ann.TextValue?)
  {
    if kind == Classification && !ann.TextValue? then
      Err("Unsupported annotation type: " + ann.typeName)
    else Ok(())
  }

  /** `DATATYPE_CLASSIFICATION`, `DATATYPE_SPEECH` and the list `DATATYPES`. */
  const DataTypeClassification: string := "cl"
  const DataTypeSpeech: string := "sp"
  const DataTypes: seq<string> := [DataTypeClassification, DataTypeSpeech]

  /** `data_type_to_class(code)`. */
  function DataTypeToKind(code: string): (r: Result<Kind>)
    ensures r.Ok? <==> code in DataTypes
    ensures code == "cl" ==> r == Ok(Classification)
    ensures code == "sp" ==> r == Ok(Speech)
    ensures r.Err? ==> r.msg == "Unsupported data type: " + code
  {
    if code == DataTypeClassification then Ok(Classification)
    else if code == DataTypeSpeech then Ok(Speech)
    else Err("Unsupported data type: " + code)
  }

  /** Every listed code resolves, to a different variant each, and never to the plain record. */
  lemma {:induction false} DataTypesResolveDistinctly()
    ensures forall i :: 0 <= i < |DataTypes| ==> DataTypeToKind(DataTypes[i]).Ok? && DataTypeToKind(DataTypes[i]).value != Base
    ensures forall i, j :: 0 <= i < j < |DataTypes| ==> DataTypeToKind(DataTypes[i]) != DataTypeToKind(DataTypes[j])
  {
    assert DataTypes[0] == "cl" && DataTypes[1] == "sp";
  }

  /** A record built without an annotation, or with an empty one, has no annotation. */
  lemma NoAnnotationWhenNoneOrEmpty(r: Record)
    requires r.annotation == None || r.annotation == Some("")
    ensures !HasAnnotation(r)
  {
  }
}

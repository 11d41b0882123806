/**
 * The TXT speech writer: each item's audio file is saved in its sub-directory, and its
 * transcript goes to a file of the same name with the extension ".txt" beside it.
 */
module TxtWriter {
  import opened Wrappers
  import opened Text
  import opened Paths
  import opened Records
  import opened ReaderSupport
  import opened WriterSupport
  import SpeechTxtReader

  const TranscriptExtension: string := ".txt"
  /** The `TypeError` of `fp.write(None)`. */
  const WriteNone: string := "write() argument must be str, not None"

  /** What writing one item does to the file system. */
  datatype Effect = SaveAudio(path: string) | WriteFile(file: Written)

  /** `os.path.join(sub_dir, item.audio_name)`. */
  function AudioPath(r: Record, p: Placement): string {
    JoinPath(SubDir(p), r.audioName)
  }

  /** `os.path.splitext(path)[0] + ".txt"`: the audio path with its extension replaced. */
  function TranscriptPath(r: Record, p: Placement): (path: string)
    ensures EndsWith(path, TranscriptExtension)
    ensures StartsWith(AudioPath(r, p), path[..|path| - |TranscriptExtension|])
  {
    var stem := Splitext(AudioPath(r, p)).0;
    assert AudioPath(r, p) == stem + Splitext(AudioPath(r, p)).1;
    var path := stem + TranscriptExtension;
    assert path[..|path| - |TranscriptExtension|] == stem;
    path
  }

  function AudioEffects(r: Record, p: Placement, annotationsOnly: bool): seq<Effect> {
    if annotationsOnly then [] else [SaveAudio(AudioPath(r, p))]
  }

  /**
   * One item as the code handles it: `if item.has_annotation:` tests the method itself, which
   * is always true, so every item gets a transcript file; an item without annotation leaves
   * that file empty and raises, since `None` cannot be written.
   */
  function ItemOutputAsWritten(r: Record, p: Placement, annotationsOnly: bool): (seq<Effect>, Option<string>) {
    var txt := TranscriptPath(r, p);
    match r.annotation
    case None => (AudioEffects(r, p, annotationsOnly) + [WriteFile(Written(txt, ""))], Some(WriteNone))
    case Some(a) => (AudioEffects(r, p, annotationsOnly) + [WriteFile(Written(txt, a + "\n"))], None)
  }

  /** One item as evidently intended: the transcript file is written only for an annotated item. */
  function ItemOutput(r: Record, p: Placement, annotationsOnly: bool): (effects: seq<Effect>)
    ensures |effects| == (if annotationsOnly then 0 else 1) + (if HasAnnotation(r) then 1 else 0)
    ensures !annotationsOnly ==> effects[0] == SaveAudio(JoinPath(SubDir(p), r.audioName))
    ensures HasAnnotation(r) ==> effects[|effects| - 1] == WriteFile(Written(TranscriptPath(r, p), r.annotation.value + "\n"))
    ensures !HasAnnotation(r) ==> forall k :: 0 <= k < |effects| ==> effects[k].SaveAudio?
  {
    AudioEffects(r, p, annotationsOnly)
      + (if HasAnnotation(r) then [WriteFile(Written(TranscriptPath(r, p), r.annotation.value + "\n"))] else [])
  }

  /** The code as written raises on an item without annotation, after creating an empty transcript file. */
  lemma MissingAnnotationRaises(r: Record, p: Placement, annotationsOnly: bool)
    requires r.annotation.None?
    ensures ItemOutputAsWritten(r, p, annotationsOnly).1 == Some(WriteNone)
    ensures WriteFile(Written(TranscriptPath(r, p), "")) in ItemOutputAsWritten(r, p, annotationsOnly).0
    ensures forall k :: 0 <= k < |ItemOutput(r, p, annotationsOnly)| ==> !ItemOutput(r, p, annotationsOnly)[k].WriteFile?
  {
    var out := ItemOutputAsWritten(r, p, annotationsOnly).0;
    assert out[|out| - 1] == WriteFile(Written(TranscriptPath(r, p), ""));
  }

  /** The code as written gives an item with an empty transcript a transcript file holding only a line end. */
  lemma EmptyAnnotationWritten(r: Record, p: Placement, annotationsOnly: bool)
    requires r.annotation == Some("")
    ensures ItemOutputAsWritten(r, p, annotationsOnly) == (ItemOutput(r, p, annotationsOnly) + [WriteFile(Written(TranscriptPath(r, p), "\n"))], None)
  {
    assert r.annotation.value + "\n" == "\n";
    var audio := AudioEffects(r, p, annotationsOnly);
    assert ItemOutput(r, p, annotationsOnly) == audio + [];
    assert audio + [] == audio;
  }

  /** For annotated items the code as written and the intended behaviour agree. */
  lemma AnnotatedAgrees(r: Record, p: Placement, annotationsOnly: bool)
    requires HasAnnotation(r)
    ensures ItemOutputAsWritten(r, p, annotationsOnly) == (ItemOutput(r, p, annotationsOnly), None)
  {
  }

  /**
   * What `write_stream` does to a sequence of items, as the code is written: each item's
   * effects in turn, until an item without annotation raises after its empty transcript file.
   */
  function StreamOutput(items: seq<Record>, ps: seq<Placement>, annotationsOnly: bool): (out: (seq<Effect>, Option<string>))
    requires |items| == |ps|
  {
    if |items| == 0 then ([], None)
    else
      var head := ItemOutputAsWritten(items[0], ps[0], annotationsOnly);
      if head.1.Some? then head
      else
        var rest := StreamOutput(items[1..], ps[1..], annotationsOnly);
        (head.0 + rest.0, rest.1)
  }

  /** What a sequence of items would do as evidently intended: every item's `ItemOutput`, in order. */
  function IntendedOutput(items: seq<Record>, ps: seq<Placement>, annotationsOnly: bool): seq<Effect>
    requires |items| == |ps|
  {
    if |items| == 0 then []
    else ItemOutput(items[0], ps[0], annotationsOnly) + IntendedOutput(items[1..], ps[1..], annotationsOnly)
  }

  /** The stream raises exactly when some item has no annotation at all, and then with the `TypeError` of `fp.write(None)`. */
  lemma {:induction false} StreamError(items: seq<Record>, ps: seq<Placement>, annotationsOnly: bool)
    requires |items| == |ps|
    ensures StreamOutput(items, ps, annotationsOnly).1.Some? <==> exists k :: 0 <= k < |items| && items[k].annotation.None?
    ensures StreamOutput(items, ps, annotationsOnly).1.Some? ==> StreamOutput(items, ps, annotationsOnly).1 == Some(WriteNone)
  {
    if |items| > 0 {
      StreamError(items[1..], ps[1..], annotationsOnly);
      if items[0].annotation.Some? {
        if exists k :: 0 <= k < |items| && items[k].annotation.None? {
          var k :| 0 <= k < |items| && items[k].annotation.None?;
          assert items[1..][k - 1] == items[k];
        }
        if exists k :: 0 <= k < |items[1..]| && items[1..][k].annotation.None? {
          var k :| 0 <= k < |items[1..]| && items[1..][k].annotation.None?;
          assert items[k + 1] == items[1..][k];
        }
      }
    }
  }

  /** Where every item is annotated, the code as written does what was intended, and does not raise. */
  lemma {:induction false} StreamAgreesWhenAnnotated(items: seq<Record>, ps: seq<Placement>, annotationsOnly: bool)
    requires |items| == |ps|
    requires forall k :: 0 <= k < |items| ==> HasAnnotation(items[k])
    ensures StreamOutput(items, ps, annotationsOnly) == (IntendedOutput(items, ps, annotationsOnly), None)
  {
    if |items| > 0 {
      AnnotatedAgrees(items[0], ps[0], annotationsOnly);
      assert forall k :: 0 <= k < |items[1..]| ==> items[1..][k] == items[k + 1];
      StreamAgreesWhenAnnotated(items[1..], ps[1..], annotationsOnly);
    }
  }

  lemma StreamUnfold(items: seq<Record>, ps: seq<Placement>, annotationsOnly: bool, i: nat)
    requires |items| == |ps| && i < |items|
    ensures var head := ItemOutputAsWritten(items[i], ps[i], annotationsOnly);
      var rest := StreamOutput(items[i + 1..], ps[i + 1..], annotationsOnly);
      StreamOutput(items[i..], ps[i..], annotationsOnly) == if head.1.Some? then head else (head.0 + rest.0, rest.1)
  {
    assert items[i..][0] == items[i] && ps[i..][0] == ps[i];
    assert items[i..][1..] == items[i + 1..] && ps[i..][1..] == ps[i + 1..];
  }

  /**
   * One pass of the loop of `write_stream`: the audio is saved unless only annotations are
   * written, then the transcript file is opened, since `if item.has_annotation:` tests the
   * method itself, which is always true; writing a missing annotation raises.
   */
  method WriteItem(item: Record, p: Placement, annotationsOnly: bool) returns (added: seq<Effect>, error: Option<string>)
    ensures (added, error) == ItemOutputAsWritten(item, p, annotationsOnly)
  {
    added, error := [], None;
    if !annotationsOnly {
      added := [SaveAudio(AudioPath(item, p))];
    }
    var txt := TranscriptPath(item, p);
    if item.annotation.None? {
      added := added + [WriteFile(Written(txt, ""))];
      error := Some(WriteNone);
    } else {
      added := added + [WriteFile(Written(txt, item.annotation.value + "\n"))];
    }
  }

  /** The loop of `write_stream`. */
  method WriteItems(items: seq<Record>, ps: seq<Placement>, annotationsOnly: bool) returns (effects: seq<Effect>, error: Option<string>)
    requires |items| == |ps|
    ensures (effects, error) == StreamOutput(items, ps, annotationsOnly)
  {
    effects, error := [], None;
    var i := 0;
    assert items[0..] == items && ps[0..] == ps;
    assert effects + StreamOutput(items, ps, annotationsOnly).0 == StreamOutput(items, ps, annotationsOnly).0;
    while i < |items|
      invariant 0 <= i <= |items|
      invariant StreamOutput(items, ps, annotationsOnly).0 == effects + StreamOutput(items[i..], ps[i..], annotationsOnly).0
      invariant StreamOutput(items, ps, annotationsOnly).1 == StreamOutput(items[i..], ps[i..], annotationsOnly).1
    {
      StreamUnfold(items, ps, annotationsOnly, i);
      var added, e := WriteItem(items[i], ps[i], annotationsOnly);
      if e.Some? {
        assert StreamOutput(items[i..], ps[i..], annotationsOnly) == (added, e);
        effects := effects + added;
        error := e;
        return;
      }
      SeqAssoc(effects, added, StreamOutput(items[i + 1..], ps[i + 1..], annotationsOnly).0);
      effects := effects + added;
      i := i + 1;
    }
    assert items[i..] == [] && ps[i..] == [];
    assert StreamOutput(items[i..], ps[i..], annotationsOnly) == ([], None);
    assert effects + [] == effects;
  }

  class TxtSpeechWriter {
    var annotationsOnly: Option<bool>

    constructor(annotationsOnly: Option<bool>)
      ensures this.annotationsOnly == annotationsOnly
    {
      this.annotationsOnly := annotationsOnly;
    }

    /** `initialize()`: audio is written unless told otherwise. */
    method Initialize()
      modifies this
      ensures annotationsOnly == Some(old(annotationsOnly).GetOr(false))
    {
      if annotationsOnly.None? {
        annotationsOnly := Some(false);
      }
    }

    /**
     * `write_stream(data)`: the audio and transcript files of the items, in order, until an
     * item without annotation raises.
     */
    method WriteStream(items: seq<Record>, placements: seq<Placement>) returns (effects: seq<Effect>, error: Option<string>)
      requires annotationsOnly.Some? && |placements| == |items|
      ensures (effects, error) == StreamOutput(items, placements, annotationsOnly.value)
    {
      effects, error := WriteItems(items, placements, annotationsOnly.value);
    }
  }

  /**
   * Write-then-read: the transcript file of an annotated item whose transcript has no
   * surrounding whitespace and no carriage return, read by the TXT speech reader, yields one
   * record carrying that transcript.
   */
  lemma TranscriptReadsBack(fs: FileSystem, r: Record, p: Placement, relPath: string, speakerSuffix: Option<string>, speakerKey: string)
    requires HasAnnotation(r)
    requires !IsSpace(r.annotation.value[0]) && !IsSpace(r.annotation.value[|r.annotation.value| - 1])
    requires '\r' !in r.annotation.value
    requires TranscriptPath(r, p) in fs.files && fs.files[TranscriptPath(r, p)] == r.annotation.value + "\n"
    ensures var txt := TranscriptPath(r, p);
      var o := SpeechTxtReader.ReadFile(fs, txt, relPath, speakerSuffix, speakerKey);
      && o.error == None
      && |RecordsOf(o.yielded)| == 1
      && RecordsOf(o.yielded)[0].annotation == r.annotation
      && RecordsOf(o.yielded)[0].kind == Speech
  {
    var txt := TranscriptPath(r, p);
    var a := r.annotation.value;
    var content := a + "\n";
    assert '\r' !in content by {
      forall i | 0 <= i < |content| ensures content[i] != '\r' {
        if i < |a| {
          assert content[i] == a[i];
        }
      }
    }
    TranslateNewlinesNoCR(content);
    StripPadding("", a, "\n");
    assert "" + a + "\n" == content;
    SpeechTxtReader.ReadFileRecord(fs, txt, relPath, speakerSuffix, speakerKey);
  }
}

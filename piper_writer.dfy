/**
 * The Piper writer: WAV files are saved below each item's sub-directory, and each
 * sub-directory gets a metadata file with one `stem|transcript` or `stem|speaker|transcript`
 * row per annotated item.
 */
module PiperWriter {
  import opened Wrappers
  import opened Text
  import opened Paths
  import opened Records
  import opened WriterSupport

  const DefaultRelPath: string := "wav"
  const DefaultMetadataFile: string := "metadata.csv"
  const UnknownSpeaker: string := "[unknown]"
  const FieldSeparator: char := '|'
  const NotWav: string := "Audio data not in WAV! Use convert-to-wav filter!"
  /** The `TypeError` of a `%` format with more placeholders than arguments. */
  const MissingFormatArgument: string := "not enough arguments for format string"

  /** The test before saving: the lower-cased name must end with the WAV extension. */
  predicate IsWavName(r: Record) {
    LowerEndsWith(r.audioName, WavExtension)
  }

  /**
   * The row as the code builds it. With a speaker key whose value is missing, the warning
   * `"... '%s' in meta-data: %s" % item.audio_name` has two placeholders and one argument,
   * so it raises before the row is appended.
   */
  function RowAsWritten(r: Record, speakerKey: Option<string>): Result<string>
    requires HasAnnotation(r)
  {
    if speakerKey.None? then Ok(Stem(r) + "|" + r.annotation.value)
    else if r.metadata.Some? && speakerKey.value in r.metadata.value then
      Ok(Stem(r) + "|" + ValueText(r.metadata.value[speakerKey.value]) + "|" + r.annotation.value)
    else Err(MissingFormatArgument)
  }

  /** The speaker stored under `key`, or "[unknown]" when the metadata lacks it. */
  function Speaker(r: Record, key: string): (s: string)
    ensures r.metadata.Some? && key in r.metadata.value ==> s == ValueText(r.metadata.value[key])
    ensures !(r.metadata.Some? && key in r.metadata.value) ==> s == UnknownSpeaker
  {
    if r.metadata.Some? && key in r.metadata.value then ValueText(r.metadata.value[key]) else UnknownSpeaker
  }

  /** The fields of a row: the stem, the speaker when a speaker key is configured, and the transcript. */
  function RowFields(r: Record, speakerKey: Option<string>): seq<string>
    requires HasAnnotation(r)
  {
    if speakerKey.None? then [Stem(r), r.annotation.value]
    else [Stem(r), Speaker(r, speakerKey.value), r.annotation.value]
  }

  /** The row as evidently intended: a missing speaker becomes "[unknown]" after the warning. */
  function Row(r: Record, speakerKey: Option<string>): string
    requires HasAnnotation(r)
  {
    if speakerKey.None? then Stem(r) + "|" + r.annotation.value
    else Stem(r) + "|" + Speaker(r, speakerKey.value) + "|" + r.annotation.value
  }

  /** The code as written raises for an annotated item whose speaker is missing; the intended row names the speaker "[unknown]". */
  lemma MissingSpeakerRaises(r: Record, key: string)
    requires HasAnnotation(r)
    requires !(r.metadata.Some? && key in r.metadata.value)
    ensures RowAsWritten(r, Some(key)) == Err(MissingFormatArgument)
    ensures RowFields(r, Some(key))[1] == UnknownSpeaker
  {
  }

  /** Everywhere else the row as written and the intended row agree. */
  lemma RowAsWrittenAgrees(r: Record, speakerKey: Option<string>)
    requires HasAnnotation(r)
    requires speakerKey.None? || (r.metadata.Some? && speakerKey.value in r.metadata.value)
    ensures RowAsWritten(r, speakerKey) == Ok(Row(r, speakerKey))
  {
  }

  /** A row is its fields joined by "|". */
  lemma RowIsJoin(r: Record, speakerKey: Option<string>)
    requires HasAnnotation(r)
    ensures Row(r, speakerKey) == Join(RowFields(r, speakerKey), FieldSeparator)
  {
    var f := RowFields(r, speakerKey);
    var last := [f[|f| - 1]];
    assert f[|f| - 1..] == last;
    assert Join(last, FieldSeparator) == f[|f| - 1];
    if speakerKey.Some? {
      assert f[1..] == [f[1], f[2]];
      assert f[1..][1..] == last;
    } else {
      assert f[1..] == last;
    }
  }

  /** A row splits back at "|" into stem, speaker (when configured) and transcript when none of them holds a "|". */
  lemma RowSplits(r: Record, speakerKey: Option<string>)
    requires HasAnnotation(r)
    requires forall k :: 0 <= k < |RowFields(r, speakerKey)| ==> FieldSeparator !in RowFields(r, speakerKey)[k]
    ensures Split(Row(r, speakerKey), FieldSeparator) == RowFields(r, speakerKey)
    ensures |Split(Row(r, speakerKey), FieldSeparator)| == (if speakerKey.None? then 2 else 3)
  {
    RowIsJoin(r, speakerKey);
    SplitJoin(RowFields(r, speakerKey), FieldSeparator);
  }

  /**
   * Why `write_batch` stops at an item: a non-WAV name when audio is written (before anything
   * of the item is saved or registered), or the format error of a missing speaker (after the
   * audio is saved and the sub-directory registered).
   */
  datatype Stop = NotWavStop | SpeakerStop {
    /** The message of the exception raised. */
    function Message(): string {
      if NotWavStop? then NotWav else MissingFormatArgument
    }
  }

  /** Whether, and why, `write_batch` stops at an item. */
  function ItemError(r: Record, annotationsOnly: bool, speakerKey: Option<string>): (e: Option<Stop>)
    ensures e == Some(NotWavStop) <==> !annotationsOnly && !IsWavName(r)
    ensures e == Some(SpeakerStop) <==>
      ((annotationsOnly || IsWavName(r)) && HasAnnotation(r)
       && speakerKey.Some? && !(r.metadata.Some? && speakerKey.value in r.metadata.value))
  {
    if !annotationsOnly && !IsWavName(r) then Some(NotWavStop)
    else if HasAnnotation(r) && RowAsWritten(r, speakerKey).Err? then Some(SpeakerStop)
    else None
  }

  /**
   * What one item adds to the dictionary as the code builds it: its sub-directory, and its row
   * when it is annotated and the row could be built.
   */
  function EntryOf(r: Record, p: Placement, speakerKey: Option<string>): Entry<string> {
    Entry(SubDir(p), if HasAnnotation(r) && RowAsWritten(r, speakerKey).Ok? then Some(RowAsWritten(r, speakerKey).value) else None)
  }

  function Entries(items: seq<Record>, ps: seq<Placement>, speakerKey: Option<string>): (es: seq<Entry<string>>)
    requires |items| == |ps|
    ensures |es| == |items|
    ensures forall k :: 0 <= k < |items| ==> es[k] == EntryOf(items[k], ps[k], speakerKey)
  {
    if |items| == 0 then []
    else
      var rest := Entries(items[1..], ps[1..], speakerKey);
      assert forall k :: 1 <= k < |items| ==> items[1..][k - 1] == items[k] && ps[1..][k - 1] == ps[k];
      [EntryOf(items[0], ps[0], speakerKey)] + rest
  }

  /** Where a speaker is known for every annotated item, each entry holds the intended row. */
  lemma EntryOfAgrees(r: Record, p: Placement, speakerKey: Option<string>)
    requires speakerKey.None? || (r.metadata.Some? && speakerKey.value in r.metadata.value)
    ensures EntryOf(r, p, speakerKey) == Entry(SubDir(p), if HasAnnotation(r) then Some(Row(r, speakerKey)) else None)
  {
    if HasAnnotation(r) {
      RowAsWrittenAgrees(r, speakerKey);
    }
  }

  /**
   * How many items `write_batch` gets through without raising: all of them, unless an item
   * raises (see `ItemError`).
   */
  function Processed(items: seq<Record>, annotationsOnly: bool, speakerKey: Option<string>): (n: nat)
    ensures n <= |items|
    ensures forall k :: 0 <= k < n ==> ItemError(items[k], annotationsOnly, speakerKey).None?
    ensures n < |items| ==> ItemError(items[n], annotationsOnly, speakerKey).Some?
  {
    if |items| == 0 || ItemError(items[0], annotationsOnly, speakerKey).Some? then 0
    else
      var n := Processed(items[1..], annotationsOnly, speakerKey);
      assert forall k :: 1 <= k < n + 1 ==> items[1..][k - 1] == items[k];
      n + 1
  }

  /**
   * How many items have their audio saved (when audio is written) and their sub-directory
   * registered: the processed ones, plus the item whose speaker is missing.
   */
  function Registered(items: seq<Record>, annotationsOnly: bool, speakerKey: Option<string>): (m: nat)
    ensures var n := Processed(items, annotationsOnly, speakerKey);
      m == (if n < |items| && ItemError(items[n], annotationsOnly, speakerKey) == Some(SpeakerStop) then n + 1 else n)
    ensures m <= |items|
  {
    var n := Processed(items, annotationsOnly, speakerKey);
    if n < |items| && ItemError(items[n], annotationsOnly, speakerKey) == Some(SpeakerStop) then n + 1 else n
  }

  /** The error `write_batch` raises, if any. */
  function BatchError(items: seq<Record>, annotationsOnly: bool, speakerKey: Option<string>): (e: Option<string>)
    ensures var n := Processed(items, annotationsOnly, speakerKey);
      e == (if n < |items| then Some(ItemError(items[n], annotationsOnly, speakerKey).value.Message()) else None)
  {
    var n := Processed(items, annotationsOnly, speakerKey);
    if n < |items| then Some(ItemError(items[n], annotationsOnly, speakerKey).value.Message()) else None
  }

  /** A non-WAV item stops the batch before anything of it happens. */
  lemma StopNotWav(items: seq<Record>, annotationsOnly: bool, speakerKey: Option<string>, i: nat)
    requires i <= Processed(items, annotationsOnly, speakerKey) && i < |items|
    requires !annotationsOnly && !IsWavName(items[i])
    ensures Registered(items, annotationsOnly, speakerKey) == i
    ensures BatchError(items, annotationsOnly, speakerKey) == Some(NotWav)
  {
  }

  /** An annotated item whose speaker is missing stops the batch after it is registered. */
  lemma StopSpeaker(items: seq<Record>, annotationsOnly: bool, speakerKey: Option<string>, i: nat)
    requires i <= Processed(items, annotationsOnly, speakerKey) && i < |items|
    requires annotationsOnly || IsWavName(items[i])
    requires HasAnnotation(items[i]) && RowAsWritten(items[i], speakerKey).Err?
    ensures Registered(items, annotationsOnly, speakerKey) == i + 1
    ensures BatchError(items, annotationsOnly, speakerKey) == Some(MissingFormatArgument)
  {
  }

  lemma ContinuePast(items: seq<Record>, annotationsOnly: bool, speakerKey: Option<string>, i: nat)
    requires i <= Processed(items, annotationsOnly, speakerKey) && i < |items|
    requires annotationsOnly || IsWavName(items[i])
    requires !(HasAnnotation(items[i]) && RowAsWritten(items[i], speakerKey).Err?)
    ensures i < Processed(items, annotationsOnly, speakerKey)
  {
  }

  /** An item that is not stopped for its name is registered. */
  lemma RegisteredPast(items: seq<Record>, annotationsOnly: bool, speakerKey: Option<string>, i: nat)
    requires i <= Processed(items, annotationsOnly, speakerKey) && i < |items|
    requires ItemError(items[i], annotationsOnly, speakerKey) != Some(NotWavStop)
    ensures i < Registered(items, annotationsOnly, speakerKey)
  {
  }

  lemma ThroughAll(items: seq<Record>, annotationsOnly: bool, speakerKey: Option<string>)
    requires Processed(items, annotationsOnly, speakerKey) == |items|
    ensures Registered(items, annotationsOnly, speakerKey) == |items|
    ensures BatchError(items, annotationsOnly, speakerKey) == None
  {
  }

  /**
   * A batch in which every annotated item has its speaker raises exactly at the first non-WAV
   * item (when audio is written), and registers the intended rows of the items before it.
   */
  lemma {:induction false} BatchWithSpeakers(items: seq<Record>, ps: seq<Placement>, annotationsOnly: bool, speakerKey: Option<string>)
    requires |items| == |ps|
    requires forall k :: 0 <= k < |items| && HasAnnotation(items[k]) ==>
      speakerKey.None? || (items[k].metadata.Some? && speakerKey.value in items[k].metadata.value)
    ensures var n := Processed(items, annotationsOnly, speakerKey);
      && Registered(items, annotationsOnly, speakerKey) == n
      && (BatchError(items, annotationsOnly, speakerKey).Some? <==> exists k :: 0 <= k < |items| && !annotationsOnly && !IsWavName(items[k]))
      && (BatchError(items, annotationsOnly, speakerKey).Some? ==> BatchError(items, annotationsOnly, speakerKey) == Some(NotWav))
      && (forall k :: 0 <= k < n ==>
            Entries(items, ps, speakerKey)[k].line == (if HasAnnotation(items[k]) then Some(Row(items[k], speakerKey)) else None))
  {
    var n := Processed(items, annotationsOnly, speakerKey);
    var es := Entries(items, ps, speakerKey);
    forall k | 0 <= k < n
      ensures es[k].line == (if HasAnnotation(items[k]) then Some(Row(items[k], speakerKey)) else None)
    {
      if HasAnnotation(items[k]) {
        RowAsWrittenAgrees(items[k], speakerKey);
      }
    }
    if n < |items| {
      assert ItemError(items[n], annotationsOnly, speakerKey) == Some(NotWavStop);
    }
  }

  /**
   * One pass of the loop of `write_batch`: the audio is saved unless only annotations are
   * written or the name is not a WAV one (which raises at once); the sub-directory is
   * registered and the row, when the item is annotated, is built and appended.
   */
  method WriteItem(acc: Splits<string>, item: Record, p: Placement, relPath: string,
                   annotationsOnly: bool, speakerKey: Option<string>)
    returns (acc': Splits<string>, saved: seq<string>, stop: Option<Stop>)
    ensures stop == ItemError(item, annotationsOnly, speakerKey)
    ensures stop == Some(NotWavStop) ==> acc' == acc && saved == []
    ensures stop != Some(NotWavStop) ==> acc' == Add(acc, EntryOf(item, p, speakerKey))
    ensures stop != Some(NotWavStop) ==> saved == if annotationsOnly then [] else [AudioTarget(item, p, relPath)]
  {
    acc', saved, stop := acc, [], None;
    if !annotationsOnly {
      if !IsWavName(item) {
        stop := Some(NotWavStop);
        return;
      }
      saved := [AudioTarget(item, p, relPath)];
    }
    var line := None;
    if HasAnnotation(item) {
      var row := RowAsWritten(item, speakerKey);
      if row.Err? {
        stop := Some(SpeakerStop);
      } else {
        line := Some(row.value);
      }
    }
    acc' := Add(acc, Entry(SubDir(p), line));
  }

  /** What the loop of `write_batch` leaves behind: the dictionary, the audio saved and the error raised. */
  ghost predicate Finished(s: Splits<string>, acc: Splits<string>, saved: seq<string>, error: Option<string>,
                           items: seq<Record>, ps: seq<Placement>, relPath: string, annotationsOnly: bool, speakerKey: Option<string>)
    requires |items| == |ps|
  {
    var m := Registered(items, annotationsOnly, speakerKey);
    && acc == Accumulate(s, Entries(items, ps, speakerKey)[..m])
    && error == BatchError(items, annotationsOnly, speakerKey)
    && (annotationsOnly ==> saved == [])
    && (!annotationsOnly ==> saved == AudioTargets(items[..m], ps[..m], relPath))
  }

  /** The loop of `write_batch` after `i` items, none of which raised. */
  ghost predicate LoopInv(s: Splits<string>, acc: Splits<string>, saved: seq<string>,
                          items: seq<Record>, ps: seq<Placement>, relPath: string, annotationsOnly: bool, speakerKey: Option<string>, i: nat)
    requires |items| == |ps|
  {
    && i <= Processed(items, annotationsOnly, speakerKey)
    && AccumulatesTo(s, acc, Entries(items, ps, speakerKey)[..Registered(items, annotationsOnly, speakerKey)], i)
    && (annotationsOnly ==> saved == [])
    && (!annotationsOnly ==> SavedUpTo(saved, items, ps, relPath, i))
  }

  lemma LoopStart(s: Splits<string>, items: seq<Record>, ps: seq<Placement>, relPath: string, annotationsOnly: bool, speakerKey: Option<string>)
    requires |items| == |ps|
    ensures LoopInv(s, s, [], items, ps, relPath, annotationsOnly, speakerKey, 0)
  {
    AccumulateStart(s, Entries(items, ps, speakerKey)[..Registered(items, annotationsOnly, speakerKey)]);
  }

  lemma LoopStep(s: Splits<string>, acc: Splits<string>, saved: seq<string>,
                 items: seq<Record>, ps: seq<Placement>, relPath: string, annotationsOnly: bool, speakerKey: Option<string>, i: nat)
    requires |items| == |ps| && i < |items|
    requires LoopInv(s, acc, saved, items, ps, relPath, annotationsOnly, speakerKey, i)
    requires ItemError(items[i], annotationsOnly, speakerKey).None?
    ensures LoopInv(s, Add(acc, EntryOf(items[i], ps[i], speakerKey)),
                    saved + (if annotationsOnly then [] else [AudioTarget(items[i], ps[i], relPath)]),
                    items, ps, relPath, annotationsOnly, speakerKey, i + 1)
  {
    ContinuePast(items, annotationsOnly, speakerKey, i);
    var es := Entries(items, ps, speakerKey)[..Registered(items, annotationsOnly, speakerKey)];
    assert es[i] == EntryOf(items[i], ps[i], speakerKey);
    AccumulateStep(s, acc, es, i, EntryOf(items[i], ps[i], speakerKey));
    if !annotationsOnly {
      SavedStep(saved, items, ps, relPath, i);
    }
  }

  lemma LoopNotWav(s: Splits<string>, acc: Splits<string>, saved: seq<string>,
                   items: seq<Record>, ps: seq<Placement>, relPath: string, annotationsOnly: bool, speakerKey: Option<string>, i: nat)
    requires |items| == |ps| && i < |items|
    requires LoopInv(s, acc, saved, items, ps, relPath, annotationsOnly, speakerKey, i)
    requires ItemError(items[i], annotationsOnly, speakerKey) == Some(NotWavStop)
    ensures Finished(s, acc, saved, Some(NotWav), items, ps, relPath, annotationsOnly, speakerKey)
  {
    StopNotWav(items, annotationsOnly, speakerKey, i);
    AccumulateEnd(s, acc, Entries(items, ps, speakerKey)[..i]);
  }

  lemma LoopSpeaker(s: Splits<string>, acc: Splits<string>, saved: seq<string>,
                    items: seq<Record>, ps: seq<Placement>, relPath: string, annotationsOnly: bool, speakerKey: Option<string>, i: nat)
    requires |items| == |ps| && i < |items|
    requires LoopInv(s, acc, saved, items, ps, relPath, annotationsOnly, speakerKey, i)
    requires ItemError(items[i], annotationsOnly, speakerKey) == Some(SpeakerStop)
    ensures Finished(s, Add(acc, EntryOf(items[i], ps[i], speakerKey)),
                     saved + (if annotationsOnly then [] else [AudioTarget(items[i], ps[i], relPath)]),
                     Some(MissingFormatArgument), items, ps, relPath, annotationsOnly, speakerKey)
  {
    StopSpeaker(items, annotationsOnly, speakerKey, i);
    var es := Entries(items, ps, speakerKey)[..i + 1];
    assert es[i] == EntryOf(items[i], ps[i], speakerKey);
    AccumulateStep(s, acc, es, i, EntryOf(items[i], ps[i], speakerKey));
    AccumulateEnd(s, Add(acc, EntryOf(items[i], ps[i], speakerKey)), es);
    if !annotationsOnly {
      SavedStep(saved, items, ps, relPath, i);
    }
  }

  lemma LoopEnd(s: Splits<string>, acc: Splits<string>, saved: seq<string>,
                items: seq<Record>, ps: seq<Placement>, relPath: string, annotationsOnly: bool, speakerKey: Option<string>)
    requires |items| == |ps|
    requires LoopInv(s, acc, saved, items, ps, relPath, annotationsOnly, speakerKey, |items|)
    ensures Finished(s, acc, saved, None, items, ps, relPath, annotationsOnly, speakerKey)
  {
    ThroughAll(items, annotationsOnly, speakerKey);
    AccumulateEnd(s, acc, Entries(items, ps, speakerKey)[..|items|]);
  }

  /** The loop of `write_batch`, from the dictionary `s` before the batch. */
  method WriteItems(s: Splits<string>, items: seq<Record>, ps: seq<Placement>, relPath: string,
                    annotationsOnly: bool, speakerKey: Option<string>)
    returns (acc: Splits<string>, saved: seq<string>, error: Option<string>)
    requires |ps| == |items|
    ensures Finished(s, acc, saved, error, items, ps, relPath, annotationsOnly, speakerKey)
  {
    acc := s;
    saved := [];
    error := None;
    var i := 0;
    LoopStart(s, items, ps, relPath, annotationsOnly, speakerKey);
    while i < |items|
      invariant 0 <= i <= |items|
      invariant LoopInv(s, acc, saved, items, ps, relPath, annotationsOnly, speakerKey, i)
    {
      var acc', added, e := WriteItem(acc, items[i], ps[i], relPath, annotationsOnly, speakerKey);
      if e == Some(NotWavStop) {
        error := Some(NotWav);
        LoopNotWav(s, acc, saved, items, ps, relPath, annotationsOnly, speakerKey, i);
        return;
      }
      if e.Some? {
        LoopSpeaker(s, acc, saved, items, ps, relPath, annotationsOnly, speakerKey, i);
        acc, saved, error := acc', saved + added, Some(MissingFormatArgument);
        return;
      }
      LoopStep(s, acc, saved, items, ps, relPath, annotationsOnly, speakerKey, i);
      acc, saved := acc', saved + added;
      i := i + 1;
    }
    LoopEnd(s, acc, saved, items, ps, relPath, annotationsOnly, speakerKey);
  }

  class PiperSpeechWriter {
    var relPath: Option<string>
    /** The name of the metadata file written in each sub-directory. */
    var metadataFile: Option<string>
    var speakerKey: Option<string>
    var annotationsOnly: Option<bool>
    /** `self._splits`. */
    var splits: Splits<string>

    constructor(relPath: Option<string>, metadataFile: Option<string>, speakerKey: Option<string>, annotationsOnly: Option<bool>)
      ensures this.relPath == relPath && this.metadataFile == metadataFile
      ensures this.speakerKey == speakerKey && this.annotationsOnly == annotationsOnly
      ensures splits == NoSplits()
    {
      this.relPath := relPath;
      this.metadataFile := metadataFile;
      this.speakerKey := speakerKey;
      this.annotationsOnly := annotationsOnly;
      splits := NoSplits();
    }

    /** `initialize()`: the defaults, and an empty dictionary. */
    method Initialize()
      modifies this
      ensures relPath == Some(old(relPath).GetOr(DefaultRelPath))
      ensures metadataFile == Some(old(metadataFile).GetOr(DefaultMetadataFile))
      ensures annotationsOnly == Some(old(annotationsOnly).GetOr(false))
      ensures speakerKey == old(speakerKey)
      ensures splits == NoSplits() && Valid(splits)
    {
      if relPath.None? {
        relPath := Some(DefaultRelPath);
      }
      if metadataFile.None? {
        metadataFile := Some(DefaultMetadataFile);
      }
      if annotationsOnly.None? {
        annotationsOnly := Some(false);
      }
      splits := NoSplits();
    }

    /**
     * `write_batch(data)`: each item's audio is saved (unless only annotations are written),
     * its sub-directory registered and its row appended, until an item raises: a non-WAV one
     * before anything of it happens, one with a missing speaker after its audio is saved and
     * its sub-directory registered. Returns the paths the audio was saved to, in order.
     */
    method WriteBatch(items: seq<Record>, placements: seq<Placement>) returns (saved: seq<string>, error: Option<string>)
      requires relPath.Some? && annotationsOnly.Some? && Valid(splits)
      requires |placements| == |items|
      modifies this
      ensures relPath == old(relPath) && annotationsOnly == old(annotationsOnly)
      ensures speakerKey == old(speakerKey) && metadataFile == old(metadataFile)
      ensures var m := Registered(items, old(annotationsOnly).value, old(speakerKey));
        && splits == Accumulate(old(splits), Entries(items, placements, old(speakerKey))[..m])
        && error == BatchError(items, old(annotationsOnly).value, old(speakerKey))
        && (old(annotationsOnly).value ==> saved == [])
        && (!old(annotationsOnly).value ==>
              saved == AudioTargets(items[..m], placements[..m], old(relPath).value))
      ensures Valid(splits)
    {
      var acc;
      acc, saved, error := WriteItems(splits, items, placements, relPath.value, annotationsOnly.value, speakerKey);
      AccumulateValid(splits, Entries(items, placements, speakerKey)[..Registered(items, annotationsOnly.value, speakerKey)]);
      splits := acc;
    }

    /** `finalize()`: every sub-directory gets its rows, each plus "\n", in the metadata file. */
    method Finalize() returns (files: seq<Written>)
      requires metadataFile.Some? && Valid(splits)
      ensures files == Manifests(splits.order, splits.entries, metadataFile.value)
    {
      files := WriteManifests(splits, metadataFile.value);
    }
  }
}

/** The `convert-to-wav` filter: records not yet in WAV format are relabelled as WAV. */
module ConvertToWav {
  import opened Wrappers
  import opened Paths
  import opened Records

  /**
   * One record: a WAV record is left as it is; any other becomes a record of the same kind,
   * renamed to the WAV extension and in WAV format, with the same audio, duration, sample rate,
   * metadata and annotation.
   */
  function ConvertItem(item: Record): (r: Record)
    ensures r.format == Some(WAV)
    ensures item.format == Some(WAV) ==> r == item
    ensures item.format != Some(WAV) ==>
      && r.kind == item.kind
      && r.audioName == WithExtension(item.audioName, WavExtension)
      && r.audio == item.audio && r.duration == item.duration && r.sampleRate == item.sampleRate
      && r.metadata == item.metadata && r.annotation == item.annotation
      && r.source == None && r.data == None
  {
    if item.format == Some(WAV) then item
    else
      MakeRecord(item.kind, None, Some(WithExtension(item.audioName, WavExtension)), None, item.audio,
                 Some(WAV), item.duration, item.sampleRate, item.metadata, item.annotation)
  }

  /** `_do_process` on a list of records. */
  function Converted(items: seq<Record>): seq<Record> {
    Map(ConvertItem, items)
  }

  /** Every output is WAV, so converting a second time is the identity. */
  lemma {:induction false} ConvertIdempotent(items: seq<Record>)
    ensures forall i :: 0 <= i < |items| ==> Converted(items)[i].format == Some(WAV)
    ensures Converted(Converted(items)) == Converted(items)
  {
    var once := Converted(items);
    forall i | 0 <= i < |items|
      ensures Converted(once)[i] == once[i]
    {
      assert once[i].format == Some(WAV);
    }
  }

  /** `_do_process(data)`: one output per input, in input order. */
  method DoProcess(items: seq<Record>) returns (result: seq<Record>)
    ensures result == Converted(items)
  {
    result := [];
    var i := 0;
    while i < |items|
      invariant 0 <= i <= |items|
      invariant result == Map(ConvertItem, items[..i])
    {
      var item := items[i];
      var next: Record;
      if item.format == Some(WAV) {
        next := item;
      } else {
        var nameNew := Splitext(item.audioName).0 + WavExtension;
        next := MakeRecord(item.kind, None, Some(nameNew), None, item.audio, Some(WAV),
                           item.duration, item.sampleRate, item.metadata, item.annotation);
      }
      MapAppend(ConvertItem, items[..i], item);
      assert items[..i + 1] == items[..i] + [item];
      result := result + [next];
      i := i + 1;
    }
    assert items[..i] == items;
  }
}

/** The `convert-to-mono` filter: multi-channel audio is mixed down to one channel. */
module ConvertToMono {
  import opened Wrappers
  import opened Records

  /** Single-channel audio, what `librosa.to_mono` returns. */
  type MonoSamples = s: Samples | |s.channels| == 1 witness Samples([[]])

  /** `librosa.to_mono(audio)`. */
  type ToMonoFn = Option<Samples> -> MonoSamples

  /**
   * One record: a mono record is left as it is; for any other only the decoded audio is
   * replaced, while name, raw bytes, format, duration, sample rate, metadata, annotation and
   * kind are copied (the source path is not passed on).
   */
  function MonoItem(toMono: ToMonoFn, item: Record): (r: Record)
    ensures IsMono(r)
    ensures IsMono(item) ==> r == item
    ensures r.audioName == item.audioName && r.kind == item.kind
    ensures !IsMono(item) ==>
      && r.audio == Some(toMono(item.audio))
      && r.data == item.data && r.format == item.format && r.duration == item.duration
      && r.sampleRate == item.sampleRate && r.metadata == item.metadata && r.annotation == item.annotation
      && r.source == None
  {
    if IsMono(item) then item
    else
      MakeRecord(item.kind, None, Some(item.audioName), item.data, Some(toMono(item.audio)), item.format,
                 item.duration, item.sampleRate, item.metadata, item.annotation)
  }

  /** `_do_process` on a list of records. */
  function MonoAll(toMono: ToMonoFn, items: seq<Record>): seq<Record> {
    Map(x => MonoItem(toMono, x), items)
  }

  /** Every output is mono and keeps its name, so a second pass is the identity. */
  lemma {:induction false} MonoIdempotent(toMono: ToMonoFn, items: seq<Record>)
    ensures forall i :: 0 <= i < |items| ==>
      IsMono(MonoAll(toMono, items)[i]) && MonoAll(toMono, items)[i].audioName == items[i].audioName
    ensures MonoAll(toMono, MonoAll(toMono, items)) == MonoAll(toMono, items)
  {
    var once := MonoAll(toMono, items);
    forall i | 0 <= i < |items|
      ensures MonoAll(toMono, once)[i] == once[i]
    {
      assert IsMono(once[i]);
    }
  }

  /** `_do_process(data)`: one output per input, in input order. */
  method DoProcess(items: seq<Record>, toMono: ToMonoFn) returns (result: seq<Record>)
    ensures result == MonoAll(toMono, items)
  {
    var f := x => MonoItem(toMono, x);
    result := [];
    var i := 0;
    while i < |items|
      invariant 0 <= i <= |items|
      invariant result == Map(f, items[..i])
    {
      var item := items[i];
      var next: Record;
      if IsMono(item) {
        next := item;
      } else {
        var audioNew := toMono(item.audio);
        next := MakeRecord(item.kind, None, Some(item.audioName), item.data, Some(audioNew), item.format,
                           item.duration, item.sampleRate, item.metadata, item.annotation);
      }
      assert next == f(item);
      MapAppend(f, items[..i], item);
      assert items[..i + 1] == items[..i] + [item];
      result := result + [next];
      i := i + 1;
    }
    assert items[..i] == items;
  }
}

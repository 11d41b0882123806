/** The `resample` filter: brings every record to one sample rate. */
module Resample {
  import opened Wrappers
  import opened Paths
  import opened Records

  /** `RESAMPLE_TYPE_DEFAULT`. */
  const ResampleTypeDefault: string := "kaiser_best"

  /** `RESAMPLE_TYPES`, the default first. */
  const ResampleTypes: seq<string> := [
    ResampleTypeDefault, "kaiser_fast", "fft", "polyphase", "linear", "zero_order_hold",
    "sinc_best", "sinc_medium", "sinc_fastest", "soxr_vhq", "soxr_hq", "soxr_mq", "soxr_lq", "soxr_qq"]

  /** The sample rate `initialize` falls back to. */
  const DefaultSampleRate: int := 22050

  /** `librosa.resample(audio, orig_sr, target_sr, res_type)`. */
  type ResampleFn = (Option<Samples>, Option<int>, int, string) -> Samples

  /**
   * What the filter makes of one record: the record itself when it already has the target rate,
   * else a record of the same kind renamed to the WAV extension, in WAV format, at the target
   * rate, keeping duration, metadata and annotation.
   */
  function ResampleItem(target: int, resampleType: string, resample: ResampleFn, item: Record): (r: Record)
    ensures item.sampleRate == Some(target) ==> r == item
    ensures item.sampleRate != Some(target) ==>
      && r.kind == item.kind
      && r.audioName == WithExtension(item.audioName, WavExtension)
      && r.format == Some(WAV) && r.sampleRate == Some(target)
      && r.duration == item.duration && r.metadata == item.metadata && r.annotation == item.annotation
      && r.source == None && r.data == None
      && r.audio == Some(resample(item.audio, item.sampleRate, target, resampleType))
  {
    if item.sampleRate == Some(target) then item
    else
      MakeRecord(item.kind, None, Some(WithExtension(item.audioName, WavExtension)), None,
                 Some(resample(item.audio, item.sampleRate, target, resampleType)), Some(WAV),
                 item.duration, Some(target), item.metadata, item.annotation)
  }

  /** `_do_process` on a list of records. */
  function Resampled(target: int, resampleType: string, resample: ResampleFn, items: seq<Record>): seq<Record> {
    Map(x => ResampleItem(target, resampleType, resample, x), items)
  }

  /** Every record the filter emits has the target rate, so resampling it again changes nothing. */
  lemma ResampleItemIdempotent(target: int, resampleType: string, resample: ResampleFn, item: Record)
    ensures ResampleItem(target, resampleType, resample, item).sampleRate == Some(target)
    ensures var once := ResampleItem(target, resampleType, resample, item);
      ResampleItem(target, resampleType, resample, once) == once
  {
  }

  /** Running the filter twice gives what running it once gives. */
  lemma {:induction false} ResampleIdempotent(target: int, resampleType: string, resample: ResampleFn, items: seq<Record>)
    ensures var once := Resampled(target, resampleType, resample, items);
      Resampled(target, resampleType, resample, once) == once
  {
    var once := Resampled(target, resampleType, resample, items);
    forall i | 0 <= i < |items|
      ensures Resampled(target, resampleType, resample, once)[i] == once[i]
    {
      ResampleItemIdempotent(target, resampleType, resample, items[i]);
    }
  }

  /** The `Resample` filter object. */
  class ResampleFilter {
    var sampleRate: Option<int>
    var resampleType: Option<string>

    constructor(sampleRate: Option<int>, resampleType: Option<string>)
      ensures this.sampleRate == sampleRate && this.resampleType == resampleType
    {
      this.sampleRate := sampleRate;
      this.resampleType := resampleType;
    }

    /** `initialize()`: a missing rate becomes 22050, a missing type `kaiser_best`. */
    method Initialize()
      modifies this
      ensures sampleRate == Some(old(sampleRate).GetOr(DefaultSampleRate))
      ensures resampleType == Some(old(resampleType).GetOr(ResampleTypes[0]))
    {
      if sampleRate.None? {
        sampleRate := Some(DefaultSampleRate);
      }
      if resampleType.None? {
        resampleType := Some(ResampleTypeDefault);
      }
    }

    /** `_do_process(data)`: one output per input, in input order. */
    method DoProcess(items: seq<Record>, resample: ResampleFn) returns (result: seq<Record>)
      requires sampleRate.Some? && resampleType.Some?
      ensures result == Resampled(sampleRate.value, resampleType.value, resample, items)
    {
      var target, resType := sampleRate.value, resampleType.value;
      var f := x => ResampleItem(target, resType, resample, x);
      result := [];
      var i := 0;
      while i < |items|
        invariant 0 <= i <= |items|
        invariant result == Map(f, items[..i])
      {
        var item := items[i];
        var next: Record;
        if item.sampleRate == Some(target) {
          next := item;
        } else {
          var audioNew := resample(item.audio, item.sampleRate, target, resType);
          var nameNew := Splitext(item.audioName).0 + WavExtension;
          next := MakeRecord(item.kind, None, Some(nameNew), None, Some(audioNew), Some(WAV),
                             item.duration, Some(target), item.metadata, item.annotation);
        }
        assert next == f(item);
        MapAppend(f, items[..i], item);
        assert items[..i + 1] == items[..i] + [item];
        result := result + [next];
        i := i + 1;
      }
      assert items[..i] == items;
    }
  }
}

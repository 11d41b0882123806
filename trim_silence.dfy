/** The `trim-silence` filter: leading and trailing silence is cut from every record. */
module TrimSilence {
  import opened Wrappers
  import opened Paths
  import opened Records

  const DefaultTopDb: int := 60
  const DefaultFrameLength: int := 2048
  const DefaultHopLength: int := 512

  /** The trimmed audio of `librosa.effects.trim(audio, top_db, frame_length, hop_length)`. */
  type TrimFn = (Option<Samples>, int, int, int) -> Samples

  /** The three settings, once `initialize` has filled them in. */
  datatype Settings = Settings(topDb: int, frameLength: int, hopLength: int)

  /**
   * One record, always rebuilt: same kind, renamed to the WAV extension, in WAV format, with the
   * trimmed audio; sample rate, metadata and annotation are kept, and so is the duration,
   * although the audio has become shorter.
   */
  function TrimItem(s: Settings, trim: TrimFn, item: Record): (r: Record)
    ensures r.kind == item.kind
    ensures r.audioName == WithExtension(item.audioName, WavExtension)
    ensures r.format == Some(WAV)
    ensures r.audio == Some(trim(item.audio, s.topDb, s.frameLength, s.hopLength))
    ensures r.duration == item.duration && r.sampleRate == item.sampleRate
    ensures r.metadata == item.metadata && r.annotation == item.annotation
    ensures r.source == None && r.data == None
  {
    MakeRecord(item.kind, None, Some(WithExtension(item.audioName, WavExtension)), None,
               Some(trim(item.audio, s.topDb, s.frameLength, s.hopLength)), Some(WAV),
               item.duration, item.sampleRate, item.metadata, item.annotation)
  }

  /** `_do_process` on a list of records. */
  function Trimmed(s: Settings, trim: TrimFn, items: seq<Record>): seq<Record> {
    Map(x => TrimItem(s, trim, x), items)
  }

  /** The `TrimSilence` filter object. */
  class TrimSilenceFilter {
    var topDb: Option<int>
    var frameLength: Option<int>
    var hopLength: Option<int>

    constructor(topDb: Option<int>, frameLength: Option<int>, hopLength: Option<int>)
      ensures this.topDb == topDb && this.frameLength == frameLength && this.hopLength == hopLength
    {
      this.topDb := topDb;
      this.frameLength := frameLength;
      this.hopLength := hopLength;
    }

    /** `initialize()`: missing settings become 60 dB, 2048 and 512 samples. */
    method Initialize()
      modifies this
      ensures topDb == Some(old(topDb).GetOr(DefaultTopDb))
      ensures frameLength == Some(old(frameLength).GetOr(DefaultFrameLength))
      ensures hopLength == Some(old(hopLength).GetOr(DefaultHopLength))
    {
      if topDb.None? {
        topDb := Some(DefaultTopDb);
      }
      if frameLength.None? {
        frameLength := Some(DefaultFrameLength);
      }
      if hopLength.None? {
        hopLength := Some(DefaultHopLength);
      }
    }

    /** `_do_process(data)`: one output per input, in input order, none passed through. */
    method DoProcess(items: seq<Record>, trim: TrimFn) returns (result: seq<Record>)
      requires topDb.Some? && frameLength.Some? && hopLength.Some?
      ensures result == Trimmed(Settings(topDb.value, frameLength.value, hopLength.value), trim, items)
    {
      var s := Settings(topDb.value, frameLength.value, hopLength.value);
      var f := x => TrimItem(s, trim, x);
      result := [];
      var i := 0;
      while i < |items|
        invariant 0 <= i <= |items|
        invariant result == Map(f, items[..i])
      {
        var item := items[i];
        var audioNew := trim(item.audio, s.topDb, s.frameLength, s.hopLength);
        var nameNew := Splitext(item.audioName).0 + WavExtension;
        var next := MakeRecord(item.kind, None, Some(nameNew), None, Some(audioNew), Some(WAV),
                               item.duration, item.sampleRate, item.metadata, item.annotation);
        assert next == f(item);
        MapAppend(f, items[..i], item);
        assert items[..i + 1] == items[..i] + [item];
        result := result + [next];
        i := i + 1;
      }
      assert items[..i] == items;
    }
  }
}

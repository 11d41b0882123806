/** The `time-stretch` augmentation: changes the speed by a rate drawn from a range. */
module TimeStretchFilter {
  import opened Wrappers
  import opened Records
  import opened Randomness

  /** The settings `TimeStretch` adds to the base augmentation filter. */
  datatype Settings = Settings(fromRate: Option<real>, toRate: Option<real>)

  /** `librosa.effects.time_stretch(audio, rate)`. */
  type StretchFn = (Option<Samples>, real) -> Samples

  /** `_default_suffix()`. */
  const DefaultSuffix: string := "-stretched"

  /** `_can_augment()`: both ends of the rate range are set. */
  predicate CanAugment(s: Settings) {
    s.fromRate.Some? && s.toRate.Some?
  }

  /**
   * The rate `_augment` stretches by: none when the range is incomplete, else the lower end when
   * both ends agree, else a draw of `Random(aug_seed)` spread over the range.
   */
  function Rate(s: Settings, augSeed: Option<int>, firstDraw: FirstDraw, h: seq<Call>): (rate: Option<real>)
    ensures rate.Some? <==> CanAugment(s)
    ensures rate.Some? && s.fromRate == s.toRate ==> rate == s.fromRate
    ensures rate.Some? && s.fromRate.value < s.toRate.value ==> s.fromRate.value <= rate.value < s.toRate.value
    ensures rate.Some? && s.toRate.value < s.fromRate.value ==> s.toRate.value < rate.value <= s.fromRate.value
  {
    if CanAugment(s) then Some(Interpolate(s.fromRate.value, s.toRate.value, FirstOf(firstDraw, augSeed, h))) else None
  }

  /**
   * `_augment(item, aug_seed, audio_name)`: with no rate the item itself; otherwise a plain
   * record (not of the item's kind) with the stretched audio, format WAV, the given name and the
   * item's sample rate, metadata and annotation.
   */
  function Augment(s: Settings, item: Record, augSeed: Option<int>, audioName: string,
                   firstDraw: FirstDraw, h: seq<Call>, stretch: StretchFn): (r: Record)
    ensures !CanAugment(s) ==> r == item
    ensures CanAugment(s) ==>
      && r.kind == Base && r.format == Some(WAV) && r.audioName == audioName
      && r.sampleRate == item.sampleRate && r.metadata == item.metadata && r.annotation == item.annotation
      && r.source == None && r.data == None && r.duration == None
      && r.audio == Some(stretch(item.audio, Rate(s, augSeed, firstDraw, h).value))
  {
    match Rate(s, augSeed, firstDraw, h)
    case None => item
    case Some(rate) =>
      MakeRecord(Base, None, Some(audioName), None, Some(stretch(item.audio, rate)),
                 Some(WAV), None, item.sampleRate, item.metadata, item.annotation)
  }
}

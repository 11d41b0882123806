/** The `pitch-shift` augmentation: shifts the pitch by a number of steps drawn from a range. */
module PitchShiftFilter {
  import opened Wrappers
  import opened Records
  import opened Randomness
  import Resample

  /** The settings `PitchShift` adds to the base augmentation filter. */
  datatype Settings = Settings(fromSteps: Option<real>, toSteps: Option<real>,
                               binsPerOctave: Option<int>, resampleType: Option<string>)

  const DefaultBinsPerOctave: int := 12

  /** `librosa.effects.pitch_shift(audio, sr, n_steps, bins_per_octave, res_type)`. */
  type ShiftFn = (Option<Samples>, Option<int>, real, Option<int>, Option<string>) -> Samples

  /** `_default_suffix()`. */
  const DefaultSuffix: string := "-shifted"

  /** The part of `initialize()` this filter adds: bins per octave 12 and `kaiser_best` when unset. */
  function Initialize(s: Settings): (r: Settings)
    ensures r.fromSteps == s.fromSteps && r.toSteps == s.toSteps
    ensures r.binsPerOctave.Some? && r.resampleType.Some?
    ensures s.binsPerOctave.Some? ==> r.binsPerOctave == s.binsPerOctave
    ensures s.binsPerOctave.None? ==> r.binsPerOctave == Some(DefaultBinsPerOctave)
    ensures s.resampleType.Some? ==> r.resampleType == s.resampleType
    ensures s.resampleType.None? ==> r.resampleType == Some(Resample.ResampleTypes[0])
  {
    s.(binsPerOctave := Some(s.binsPerOctave.GetOr(DefaultBinsPerOctave)),
       resampleType := Some(s.resampleType.GetOr(Resample.ResampleTypeDefault)))
  }

  /** `_can_augment()`: both ends of the step range are set. */
  predicate CanAugment(s: Settings) {
    s.fromSteps.Some? && s.toSteps.Some?
  }

  /**
   * The steps `_augment` shifts by: none when the range is incomplete, else the lower end when
   * both ends agree, else a draw of `Random(aug_seed)` spread over the range.
   */
  function Steps(s: Settings, augSeed: Option<int>, firstDraw: FirstDraw, h: seq<Call>): (steps: Option<real>)
    ensures steps.Some? <==> CanAugment(s)
    ensures steps.Some? && s.fromSteps == s.toSteps ==> steps == s.fromSteps
    ensures steps.Some? && s.fromSteps.value < s.toSteps.value ==> s.fromSteps.value <= steps.value < s.toSteps.value
    ensures steps.Some? && s.toSteps.value < s.fromSteps.value ==> s.toSteps.value < steps.value <= s.fromSteps.value
  {
    if CanAugment(s) then Some(Interpolate(s.fromSteps.value, s.toSteps.value, FirstOf(firstDraw, augSeed, h))) else None
  }

  /**
   * `_augment(item, aug_seed, audio_name)`: with no steps the item itself; otherwise a record of
   * the same kind with the shifted audio, format WAV, the given name and the item's sample rate,
   * metadata and annotation.
   */
  function Augment(s: Settings, item: Record, augSeed: Option<int>, audioName: string,
                   firstDraw: FirstDraw, h: seq<Call>, shift: ShiftFn): (r: Record)
    ensures !CanAugment(s) ==> r == item
    ensures CanAugment(s) ==>
      && r.kind == item.kind && r.format == Some(WAV) && r.audioName == audioName
      && r.sampleRate == item.sampleRate && r.metadata == item.metadata && r.annotation == item.annotation
      && r.source == None && r.data == None && r.duration == None
      && r.audio == Some(shift(item.audio, item.sampleRate, Steps(s, augSeed, firstDraw, h).value, s.binsPerOctave, s.resampleType))
  {
    match Steps(s, augSeed, firstDraw, h)
    case None => item
    case Some(steps) =>
      MakeRecord(item.kind, None, Some(audioName), None,
                 Some(shift(item.audio, item.sampleRate, steps, s.binsPerOctave, s.resampleType)),
                 Some(WAV), None, item.sampleRate, item.metadata, item.annotation)
  }
}

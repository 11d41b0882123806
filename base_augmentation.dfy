/**
 * The shared logic of the augmentation filters: for every record, decide from one seeded
 * random stream whether to augment it, and whether the augmented record replaces the
 * original or is added after it.
 */
module BaseAugmentation {
  import opened Wrappers
  import opened Text
  import opened Paths
  import opened Records
  import opened Randomness
  import PitchShiftFilter
  import TimeStretchFilter

  /** `AUG_MODE_REPLACE`, `AUG_MODE_ADD` and `AUG_MODES`. */
  const ModeReplace: string := "replace"
  const ModeAdd: string := "add"
  const Modes: seq<string> := [ModeReplace, ModeAdd]

  /** The concrete filter, with its own settings. */
  datatype Augmenter =
    | PitchShift(pitch: PitchShiftFilter.Settings)
    | TimeStretch(stretch: TimeStretchFilter.Settings)

  /** The signal processing the augmenters call. */
  datatype Dsp = Dsp(shift: PitchShiftFilter.ShiftFn, stretch: TimeStretchFilter.StretchFn)

  /** `_default_suffix()`. */
  function DefaultSuffix(a: Augmenter): string {
    match a
    case PitchShift(_) => PitchShiftFilter.DefaultSuffix
    case TimeStretch(_) => TimeStretchFilter.DefaultSuffix
  }

  /** `_can_augment()`. */
  predicate CanAugment(a: Augmenter) {
    match a
    case PitchShift(p) => PitchShiftFilter.CanAugment(p)
    case TimeStretch(t) => TimeStretchFilter.CanAugment(t)
  }

  /** The part of `initialize()` the concrete filter adds. */
  function InitializeAugmenter(a: Augmenter): Augmenter {
    match a
    case PitchShift(p) => PitchShift(PitchShiftFilter.Initialize(p))
    case TimeStretch(_) => a
  }

  /**
   * `_augment(item, aug_seed, audio_name)`: when the filter can augment, the result carries the
   * new name, WAV format and the item's sample rate, metadata and annotation.
   */
  function AugmentWith(a: Augmenter, item: Record, augSeed: Option<int>, audioName: string,
                       firstDraw: FirstDraw, h: seq<Call>, dsp: Dsp): (r: Record)
    ensures CanAugment(a) ==>
      && r.audioName == audioName && r.format == Some(WAV)
      && r.sampleRate == item.sampleRate && r.metadata == item.metadata && r.annotation == item.annotation
  {
    match a
    case PitchShift(p) => PitchShiftFilter.Augment(p, item, augSeed, audioName, firstDraw, h, dsp.shift)
    case TimeStretch(t) => TimeStretchFilter.Augment(t, item, augSeed, audioName, firstDraw, h, dsp.stretch)
  }

  /** The filter's settings once `initialize()` has run. */
  datatype Config = Config(mode: string, suffix: Option<string>, seedAugmentation: bool,
                           threshold: real, augmenter: Augmenter)

  /** `_get_suffix()`: the configured suffix, else the filter's default. */
  function Suffix(c: Config): (s: string)
    ensures c.suffix.Some? ==> s == c.suffix.value
    ensures c.suffix.None? ==> s == DefaultSuffix(c.augmenter)
  {
    c.suffix.GetOr(DefaultSuffix(c.augmenter))
  }

  /** The augmented record's name: the suffix goes between the stem and the extension. */
  function AugmentedName(name: string, suffix: string): (r: string)
    ensures |r| == |name| + |suffix|
    ensures StartsWith(r, Splitext(name).0) && EndsWith(r, Splitext(name).1)
    ensures suffix == "" ==> r == name
  {
    var parts := Splitext(name);
    parts.0 + suffix + parts.1
  }

  /** What processing some records leaves behind: the output, the calls made on the stream, any error. */
  datatype Run = Run(outputs: seq<Record>, history: seq<Call>, error: Option<string>)

  /** `r` preceded by outputs already emitted. */
  function Prepend(out: seq<Record>, r: Run): Run {
    r.(outputs := out + r.outputs)
  }

  /** Whether the threshold draw of one record lets it through unaugmented. */
  predicate BelowThreshold(c: Config, g: Generator, h: seq<Call>) {
    g.uniform(h) < c.threshold
  }

  /** One iteration of `_do_process`, on a stream that has seen the calls `h`. */
  function ProcessItem(c: Config, g: Generator, h: seq<Call>, item: Record,
                       firstDraw: FirstDraw, dsp: Dsp): (r: Run)
    ensures !CanAugment(c.augmenter) ==> r == Run([item], h, None)
    ensures CanAugment(c.augmenter) && BelowThreshold(c, g, h) ==> r == Run([item], h + [UniformCall], None)
    ensures CanAugment(c.augmenter) && !BelowThreshold(c, g, h) ==>
      r.history == h + [UniformCall] + (if c.seedAugmentation then [RandIntCall] else [])
    ensures r.error.Some? <==>
      CanAugment(c.augmenter) && !BelowThreshold(c, g, h) && c.mode != ModeAdd && c.mode != ModeReplace
    ensures r.error.Some? ==> r.outputs == []
    ensures r.error.None? ==> 1 <= |r.outputs| <= 2
    ensures c.mode == ModeAdd ==> r.error.None? && r.outputs[0] == item
    ensures c.mode == ModeReplace ==> r.error.None? && |r.outputs| == 1
    ensures r.error.None? && r.outputs != [item] ==>
      r.outputs[|r.outputs| - 1].audioName == AugmentedName(item.audioName, Suffix(c))
      && r.outputs[|r.outputs| - 1].format == Some(WAV)
  {
    if !CanAugment(c.augmenter) then Run([item], h, None)
    else
      var h1 := h + [UniformCall];
      if BelowThreshold(c, g, h) then Run([item], h1, None)
      else
        var augSeed: Option<int> := if c.seedAugmentation then Some(g.randint(h1)) else None;
        var h2 := if c.seedAugmentation then h1 + [RandIntCall] else h1;
        var name := AugmentedName(item.audioName, Suffix(c));
        var itemNew := AugmentWith(c.augmenter, item, augSeed, name, firstDraw, h2, dsp);
        if c.mode == ModeAdd then Run([item, itemNew], h2, None)
        else if c.mode == ModeReplace then Run([itemNew], h2, None)
        else Run([], h2, Some("Unknown augmentation mode: %s" + c.mode))
  }

  /** `_do_process(data)` on a list of records: the first error ends the run. */
  function Process(c: Config, g: Generator, h: seq<Call>, items: seq<Record>,
                   firstDraw: FirstDraw, dsp: Dsp): (r: Run)
    decreases |items|
  {
    if |items| == 0 then Run([], h, None)
    else
      var first := ProcessItem(c, g, h, items[0], firstDraw, dsp);
      if first.error.Some? then first
      else Prepend(first.outputs, Process(c, g, first.history, items[1..], firstDraw, dsp))
  }

  /**
   * Without an error, every record gives one or two outputs, so there are between n and 2n;
   * in replace mode exactly n.
   */
  lemma {:induction false} ProcessLength(c: Config, g: Generator, h: seq<Call>, items: seq<Record>,
                                         firstDraw: FirstDraw, dsp: Dsp)
    ensures var r := Process(c, g, h, items, firstDraw, dsp);
      r.error.None? ==> |items| <= |r.outputs| <= 2 * |items|
    ensures c.mode == ModeReplace ==>
      Process(c, g, h, items, firstDraw, dsp).error.None? && |Process(c, g, h, items, firstDraw, dsp).outputs| == |items|
    decreases |items|
  {
    if |items| > 0 {
      var first := ProcessItem(c, g, h, items[0], firstDraw, dsp);
      ProcessLength(c, g, first.history, items[1..], firstDraw, dsp);
    }
  }

  /** A filter that cannot augment passes every record through, in order, without drawing. */
  lemma {:induction false} ProcessCannotAugment(c: Config, g: Generator, h: seq<Call>, items: seq<Record>,
                                                firstDraw: FirstDraw, dsp: Dsp)
    requires !CanAugment(c.augmenter)
    ensures Process(c, g, h, items, firstDraw, dsp) == Run(items, h, None)
    decreases |items|
  {
    if |items| > 0 {
      ProcessCannotAugment(c, g, h, items[1..], firstDraw, dsp);
      assert [items[0]] + items[1..] == items;
    }
  }

  /**
   * A filter that can augment draws once per record, plus once more per augmented record when
   * augmentation seeds are drawn: between n and 2n calls, and exactly n without seeding.
   */
  lemma {:induction false} ProcessDraws(c: Config, g: Generator, h: seq<Call>, items: seq<Record>,
                                        firstDraw: FirstDraw, dsp: Dsp)
    requires CanAugment(c.augmenter)
    ensures var r := Process(c, g, h, items, firstDraw, dsp);
      r.error.None? ==>
        && StartsWithCalls(r.history, h)
        && |h| + |items| <= |r.history| <= |h| + 2 * |items|
        && (!c.seedAugmentation ==> |r.history| == |h| + |items|)
    decreases |items|
  {
    if |items| > 0 {
      var first := ProcessItem(c, g, h, items[0], firstDraw, dsp);
      if first.error.None? {
        var rest := Process(c, g, first.history, items[1..], firstDraw, dsp);
        ProcessDraws(c, g, first.history, items[1..], firstDraw, dsp);
        assert Process(c, g, h, items, firstDraw, dsp).history == rest.history;
        ProcessItemDraws(c, g, h, items[0], firstDraw, dsp);
        if rest.error.None? {
          PrefixTransitive(rest.history, first.history, h);
        }
      }
    }
  }

  /** A record draws once, plus once more when it is augmented with a drawn seed. */
  lemma ProcessItemDraws(c: Config, g: Generator, h: seq<Call>, item: Record, firstDraw: FirstDraw, dsp: Dsp)
    requires CanAugment(c.augmenter)
    ensures var r := ProcessItem(c, g, h, item, firstDraw, dsp);
      && StartsWithCalls(r.history, h)
      && |h| + 1 <= |r.history| <= |h| + 2
      && (!c.seedAugmentation ==> |r.history| == |h| + 1)
  {
    var r := ProcessItem(c, g, h, item, firstDraw, dsp);
    var extra := if BelowThreshold(c, g, h) || !c.seedAugmentation then [] else [RandIntCall];
    assert r.history == h + ([UniformCall] + extra);
    assert r.history[..|h|] == h;
  }

  lemma PrefixTransitive(a: seq<Call>, b: seq<Call>, h: seq<Call>)
    requires StartsWithCalls(a, b) && StartsWithCalls(b, h)
    ensures StartsWithCalls(a, h)
  {
    assert a[..|h|] == a[..|b|][..|h|];
  }

  /** Processing from record `i` on is processing record `i`, then, unless it failed, the rest. */
  lemma ProcessUnfold(c: Config, g: Generator, h: seq<Call>, items: seq<Record>, i: nat,
                      firstDraw: FirstDraw, dsp: Dsp)
    requires i < |items|
    ensures var step := ProcessItem(c, g, h, items[i], firstDraw, dsp);
      Process(c, g, h, items[i..], firstDraw, dsp) ==
        if step.error.Some? then step
        else Prepend(step.outputs, Process(c, g, step.history, items[i + 1..], firstDraw, dsp))
  {
    assert items[i..][0] == items[i] && items[i..][1..] == items[i + 1..];
  }

  /** `h` is a prefix of `history`. */
  predicate StartsWithCalls(history: seq<Call>, h: seq<Call>) {
    |h| <= |history| && history[..|h|] == h
  }

  /**
   * With a threshold of 0 or less ("0 = always") in replace mode, every record is replaced by
   * its augmented version: one output per record, renamed with the suffix, in WAV format.
   */
  lemma {:induction false} ProcessAlwaysAugments(c: Config, g: Generator, h: seq<Call>, items: seq<Record>,
                                                 firstDraw: FirstDraw, dsp: Dsp)
    requires CanAugment(c.augmenter) && c.threshold <= 0.0 && c.mode == ModeReplace
    ensures var r := Process(c, g, h, items, firstDraw, dsp);
      && r.error.None? && |r.outputs| == |items|
      && forall i :: 0 <= i < |items| ==>
           r.outputs[i].audioName == AugmentedName(items[i].audioName, Suffix(c))
           && r.outputs[i].format == Some(WAV)
    decreases |items|
  {
    if |items| > 0 {
      var first := ProcessItem(c, g, h, items[0], firstDraw, dsp);
      ProcessAlwaysAugments(c, g, first.history, items[1..], firstDraw, dsp);
      var rest := Process(c, g, first.history, items[1..], firstDraw, dsp);
      assert !BelowThreshold(c, g, h);
      var itemNew := first.outputs[0];
      assert itemNew.audioName == AugmentedName(items[0].audioName, Suffix(c));
      forall i | 0 <= i < |items|
        ensures Process(c, g, h, items, firstDraw, dsp).outputs[i].audioName == AugmentedName(items[i].audioName, Suffix(c))
        ensures Process(c, g, h, items, firstDraw, dsp).outputs[i].format == Some(WAV)
      {
        if i > 0 {
          assert Process(c, g, h, items, firstDraw, dsp).outputs[i] == rest.outputs[i - 1];
        }
      }
    }
  }

  /**
   * With a threshold of 1 or more every draw falls below it: the records pass through
   * unchanged, in order, and each has cost one draw.
   */
  lemma {:induction false} ProcessNeverAugments(c: Config, g: Generator, h: seq<Call>, items: seq<Record>,
                                                firstDraw: FirstDraw, dsp: Dsp)
    requires CanAugment(c.augmenter) && c.threshold >= 1.0
    ensures Process(c, g, h, items, firstDraw, dsp) == Run(items, h + Uniforms(|items|), None)
    decreases |items|
  {
    if |items| > 0 {
      assert BelowThreshold(c, g, h);
      ProcessNeverAugments(c, g, h + [UniformCall], items[1..], firstDraw, dsp);
      assert [items[0]] + items[1..] == items;
      assert h + [UniformCall] + Uniforms(|items| - 1) == h + Uniforms(|items|);
    }
  }

  /** `n` calls of `random()`. */
  function Uniforms(n: nat): (calls: seq<Call>)
    ensures |calls| == n && forall i :: 0 <= i < n ==> calls[i] == UniformCall
  {
    if n == 0 then [] else [UniformCall] + Uniforms(n - 1)
  }

  /** The augmentation filter object. */
  class AugmentationFilter {
    var mode: Option<string>
    var suffix: Option<string>
    var seed: Option<int>
    var seedAugmentation: Option<bool>
    var threshold: Option<real>
    var augmenter: Augmenter
    var random: SeededRandom?

    constructor(mode: Option<string>, suffix: Option<string>, seed: Option<int>,
                seedAugmentation: Option<bool>, threshold: Option<real>, augmenter: Augmenter)
      ensures this.mode == mode && this.suffix == suffix && this.seed == seed
      ensures this.seedAugmentation == seedAugmentation && this.threshold == threshold
      ensures this.augmenter == augmenter && random == null
    {
      this.mode := mode;
      this.suffix := suffix;
      this.seed := seed;
      this.seedAugmentation := seedAugmentation;
      this.threshold := threshold;
      this.augmenter := augmenter;
      random := null;
    }

    /** All settings are filled in and the generator exists. */
    predicate Initialized()
      reads this
    {
      mode.Some? && seedAugmentation.Some? && threshold.Some? && random != null
    }

    /** The settings, once `initialize()` has run. */
    function Settings(): Config
      reads this
      requires Initialized()
    {
      Config(mode.value, suffix, seedAugmentation.value, threshold.value, augmenter)
    }

    /**
     * `initialize()`: mode `replace`, no seeding and threshold 0 when unset, the concrete
     * filter's own defaults, and a new generator `Random(seed)`.
     */
    method Initialize(seeded: Option<int> -> Generator)
      modifies this
      ensures Initialized()
      ensures mode == Some(old(mode).GetOr(ModeReplace))
      ensures seedAugmentation == Some(old(seedAugmentation).GetOr(false))
      ensures threshold == Some(old(threshold).GetOr(0.0))
      ensures suffix == old(suffix) && seed == old(seed)
      ensures augmenter == InitializeAugmenter(old(augmenter))
      ensures fresh(random) && random.gen == seeded(seed) && random.history == []
    {
      if mode.None? {
        mode := Some(ModeReplace);
      }
      if seedAugmentation.None? {
        seedAugmentation := Some(false);
      }
      if threshold.None? {
        threshold := Some(0.0);
      }
      augmenter := InitializeAugmenter(augmenter);
      random := new SeededRandom(seeded(seed));
    }

    /** `_get_suffix()`. */
    function GetSuffix(): (s: string)
      reads this
      ensures suffix.Some? ==> s == suffix.value
      ensures suffix.None? ==> s == DefaultSuffix(augmenter)
    {
      if suffix.None? then DefaultSuffix(augmenter) else suffix.value
    }

    /** One iteration of the loop in `_do_process`: what one record emits, or the error it raises. */
    method ProcessOne(item: Record, firstDraw: FirstDraw, dsp: Dsp) returns (emitted: seq<Record>, error: Option<string>)
      requires Initialized()
      modifies random
      ensures var step := ProcessItem(Settings(), random.gen, old(random.history), item, firstDraw, dsp);
        random.history == step.history && emitted == step.outputs && error == step.error
    {
      var c := Settings();
      error := None;
      if !CanAugment(c.augmenter) {
        emitted := [item];
        return;
      }
      var u := random.Random();
      if u < c.threshold {
        emitted := [item];
        return;
      }
      var augSeed: Option<int> := None;
      if c.seedAugmentation {
        var s := random.RandInt();
        augSeed := Some(s);
      }
      var parts := Splitext(item.audioName);
      var nameNew := parts.0 + GetSuffix() + parts.1;
      var itemNew := AugmentWith(c.augmenter, item, augSeed, nameNew, firstDraw, random.history, dsp);
      if c.mode == ModeAdd {
        emitted := [item, itemNew];
      } else if c.mode == ModeReplace {
        emitted := [itemNew];
      } else {
        emitted := [];
        error := Some("Unknown augmentation mode: %s" + c.mode);
      }
    }

    /**
     * `_do_process(data)`: the records in order, each passed through, replaced or followed by
     * its augmented version, drawing from the filter's generator; an unknown mode raises.
     */
    method DoProcess(items: seq<Record>, firstDraw: FirstDraw, dsp: Dsp) returns (result: Result<seq<Record>>)
      requires Initialized()
      modifies random
      ensures var run := Process(Settings(), random.gen, old(random.history), items, firstDraw, dsp);
        && random.history == run.history
        && (run.error.None? ==> result == Ok(run.outputs))
        && (run.error.Some? ==> result == Err(run.error.value))
    {
      var c := Settings();
      var g := random.gen;
      var h0 := random.history;
      var out: seq<Record> := [];
      var i := 0;
      while i < |items|
        invariant 0 <= i <= |items|
        invariant Settings() == c && random.gen == g
        invariant Process(c, g, h0, items, firstDraw, dsp) == Prepend(out, Process(c, g, random.history, items[i..], firstDraw, dsp))
      {
        ghost var h := random.history;
        ghost var step := ProcessItem(c, g, h, items[i], firstDraw, dsp);
        ghost var rest := Process(c, g, h, items[i..], firstDraw, dsp);
        ProcessUnfold(c, g, h, items, i, firstDraw, dsp);
        var emitted, error := ProcessOne(items[i], firstDraw, dsp);
        assert random.history == step.history && emitted == step.outputs && error == step.error;
        if error.Some? {
          assert rest == step;
          return Err(error.value);
        }
        assert rest == Prepend(emitted, Process(c, g, random.history, items[i + 1..], firstDraw, dsp));
        out := out + emitted;
        i := i + 1;
      }
      assert items[i..] == [];
      assert Process(c, g, random.history, items[i..], firstDraw, dsp) == Run([], random.history, None);
      assert Process(c, g, h0, items, firstDraw, dsp) == Run(out, random.history, None);
      result := Ok(out);
    }
  }
}

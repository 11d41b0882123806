/**
 * The random numbers the augmentation filters draw. Python's `Random` (a Mersenne Twister)
 * is not modelled: a seeded generator is described by what each call returns, as a function
 * of the calls made on it before, which is all the filters rely on.
 */
module Randomness {
  import opened Wrappers

  /** A value of `Random.random()`: a real in [0, 1). */
  type Unit = r: real | 0.0 <= r < 1.0

  /** `MIN_RAND` and `MAX_RAND` of the augmentation filters. */
  const MinRand: int := 0
  const MaxRand: int := 1000

  /** A value of `Random.randint(MIN_RAND, MAX_RAND)`: both ends included. */
  type Seed = x: int | MinRand <= x <= MaxRand

  /** A call made on a generator. */
  datatype Call = UniformCall | RandIntCall

  /** What a seeded generator returns for each call, given the calls made before it. */
  datatype Generator = Generator(uniform: seq<Call> -> Unit, randint: seq<Call> -> Seed)

  /** A generator together with the calls made on it so far: the state `Random(seed)` keeps. */
  class SeededRandom {
    const gen: Generator
    var history: seq<Call>

    constructor(gen: Generator)
      ensures this.gen == gen && history == []
    {
      this.gen := gen;
      history := [];
    }

    /** `random()`. */
    method Random() returns (u: Unit)
      modifies this
      ensures u == gen.uniform(old(history))
      ensures history == old(history) + [UniformCall]
    {
      u := gen.uniform(history);
      history := history + [UniformCall];
    }

    /** `randint(MIN_RAND, MAX_RAND)`. */
    method RandInt() returns (s: Seed)
      modifies this
      ensures s == gen.randint(old(history))
      ensures history == old(history) + [RandIntCall]
    {
      s := gen.randint(history);
      history := history + [RandIntCall];
    }
  }

  /**
   * The first `random()` of a new generator `Random(aug_seed)`. A seeded generator's draw is a
   * function of the seed alone. `Random(None)` seeds itself from the operating system, so its
   * draw may differ every time: it is indexed by the calls the filter's own generator has
   * answered by then, which differ for every record a run augments.
   */
  datatype FirstDraw = FirstDraw(seeded: int -> Unit, unseeded: seq<Call> -> Unit)

  /** The first draw for `aug_seed`, made after the calls `h` on the filter's generator. */
  function FirstOf(d: FirstDraw, augSeed: Option<int>, h: seq<Call>): (u: Unit)
    ensures augSeed.Some? ==> u == d.seeded(augSeed.value)
  {
    if augSeed.Some? then d.seeded(augSeed.value) else d.unseeded(h)
  }

  /** A draw applied to a width: `r * w`. */
  function Scale(r: Unit, w: real): real {
    r * w
  }

  /**
   * The amount an augmenter applies: `lo` itself when the range is a single point, otherwise
   * `r * (hi - lo) + lo` for a draw `r`, which lies between the two ends.
   */
  function Interpolate(lo: real, hi: real, r: Unit): (v: real)
    ensures lo == hi ==> v == lo
    ensures lo < hi ==> lo <= v < hi
    ensures hi < lo ==> hi < v <= lo
  {
    if lo == hi then lo
    else
      ScaleBelow(r, if lo < hi then hi - lo else lo - hi);
      ScaleNegated(r, lo - hi);
      Scale(r, hi - lo) + lo
  }

  /** A draw scales a positive width to something at least 0 and below that width. */
  lemma ScaleBelow(r: Unit, w: real)
    requires w > 0.0
    ensures 0.0 <= Scale(r, w) < w
  {
    assert (1.0 - r) * w > 0.0;
  }

  lemma ScaleNegated(r: Unit, w: real)
    ensures Scale(r, -w) == -Scale(r, w)
  {
  }
}

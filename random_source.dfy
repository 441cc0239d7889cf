/**
  The part of Python's `random.Random` that the sampler relies on.

  A generator is modelled by the infinite stream of values its `random()`
  method would return, one per draw, and a cursor counting the draws made so
  far. Seeding picks the stream; the stream itself (the Mersenne Twister) is
  not modelled.
 */
module Random {

  /** A value of `random()`: a float in the half-open interval [0.0, 1.0). */
  type Unit = u: real | 0.0 <= u < 1.0 witness 0.0

  /** What `uniform(lo, hi)` returns when the generator's k-th draw is `stream(k)`:
      `lo + (hi - lo) * random()`. */
  function UniformAt(stream: nat -> Unit, k: nat, lo: real, hi: real): (v: real)
    ensures lo <= hi ==> lo <= v <= hi
  {
    var u, d := stream(k), hi - lo;
    ScaleBelow(d, u);
    lo + d * u
  }

  /** Scaling a non-negative width by a fraction below one stays within the width. */
  lemma ScaleBelow(d: real, u: Unit)
    ensures 0.0 <= d ==> 0.0 <= d * u <= d
  {
    assert d * u + d * (1.0 - u) == d;
  }

  /** A seeded generator: the stream is fixed at construction and each draw advances the cursor. */
  class RandomSource {
    const stream: nat -> Unit
    var cursor: nat

    constructor (stream: nat -> Unit)
      ensures this.stream == stream && cursor == 0
    {
      this.stream := stream;
      cursor := 0;
    }

    /** `uniform(lo, hi)`: consumes exactly one draw. */
    method Uniform(lo: real, hi: real) returns (v: real)
      modifies this
      ensures v == UniformAt(stream, old(cursor), lo, hi)
      ensures cursor == old(cursor) + 1
    {
      v := UniformAt(stream, cursor, lo, hi);
      cursor := cursor + 1;
    }
  }
}

/**
  The Monte Carlo counting engine: one batch of points drawn in the square
  [-1, 1] x [-1, 1] and classified against the unit circle, and the chunked
  estimator that accumulates batches into an estimate of pi.
 */
module PiCore {
  import opened Random

  /** The largest batch that `EstimatePi` hands to `RunBatch` in one call. */
  const CHUNK_SIZE: nat := 10_000

  /** The `ValueError`s raised for a non-positive size, one per message:
      "batch_size must be positive" and "num_samples must be positive". */
  datatype Error = BatchSizeNotPositive | NumSamplesNotPositive

  datatype Result<T> = Ok(value: T) | Err(error: Error)

  /** The pair `(hits, total)` that one batch returns. */
  datatype Batch = Batch(hits: nat, total: nat)

  datatype Point = Point(x: real, y: real)

  /** A hit lies inside the unit circle or on it: the comparison is inclusive. */
  predicate IsHit(p: Point)
  {
    p.x * p.x + p.y * p.y <= 1.0
  }

  /** The point drawn at stream position `k`: x is draw k, y is draw k + 1. */
  function PointAt(stream: nat -> Unit, k: nat): Point
  {
    Point(UniformAt(stream, k, -1.0, 1.0), UniformAt(stream, k + 1, -1.0, 1.0))
  }

  /** The number of hits among the `n` points drawn from position `from` on,
      two draws per point. */
  function CountHits(stream: nat -> Unit, from: nat, n: nat): (h: nat)
    ensures h <= n
    // `from` is listed too, so that a constant `n` alone does not make the
    // verifier unfold the count all the way down
    decreases n, from
  {
    if n == 0 then 0
    else (if IsHit(PointAt(stream, from)) then 1 else 0) + CountHits(stream, from + 2, n - 1)
  }

  /** One point on the circle itself counts as a hit; one outside does not. */
  lemma SinglePointCount(stream: nat -> Unit, from: nat)
    ensures var p := PointAt(stream, from);
            CountHits(stream, from, 1) == (if p.x * p.x + p.y * p.y <= 1.0 then 1 else 0)
  {
    assert CountHits(stream, from + 2, 0) == 0;
  }

  /** A point exactly on the circle is reachable and counts: draws 0.0 and
      0.5 give x = -1.0 and y = 0.0, so x*x + y*y is exactly 1.0. */
  lemma BoundaryPointIsHit(stream: nat -> Unit, from: nat)
    requires stream(from) == 0.0 && stream(from + 1) == 0.5
    ensures PointAt(stream, from) == Point(-1.0, 0.0)
    ensures CountHits(stream, from, 1) == 1
  {
    assert CountHits(stream, from + 2, 0) == 0;
  }

  /** A corner of the square misses: draws 0.0 and 0.0 give (-1.0, -1.0),
      where x*x + y*y is 2.0. */
  lemma CornerPointIsMiss(stream: nat -> Unit, from: nat)
    requires stream(from) == 0.0 && stream(from + 1) == 0.0
    ensures PointAt(stream, from) == Point(-1.0, -1.0)
    ensures CountHits(stream, from, 1) == 0
  {
    assert CountHits(stream, from + 2, 0) == 0;
  }

  /** Counting `n` points in one go is counting the first `a` of them, then
      the remaining `n - a` from where the first `a` stopped. */
  lemma {:induction false} HitsSplit(stream: nat -> Unit, from: nat, n: nat, a: nat)
    requires a <= n
    ensures CountHits(stream, from, n) == CountHits(stream, from, a) + CountHits(stream, from + 2 * a, n - a)
    decreases a
  {
    if a > 0 {
      HitsSplit(stream, from + 2, n - 1, a - 1);
      assert from + 2 + 2 * (a - 1) == from + 2 * a;
    }
  }

  function Sum(s: seq<nat>): nat
  {
    if s == [] then 0 else s[0] + Sum(s[1..])
  }

  /** The hits counted by batches of the sizes in `chunks`, drawn one after the other. */
  function ChunkedHits(stream: nat -> Unit, from: nat, chunks: seq<nat>): nat
    decreases chunks
  {
    if chunks == [] then 0
    else CountHits(stream, from, chunks[0]) + ChunkedHits(stream, from + 2 * chunks[0], chunks[1..])
  }

  /** However the samples are split into batches, the hits are those of one count over all of them. */
  lemma {:induction false} ChunkingIrrelevant(stream: nat -> Unit, from: nat, chunks: seq<nat>)
    ensures ChunkedHits(stream, from, chunks) == CountHits(stream, from, Sum(chunks))
    decreases chunks
  {
    if chunks != [] {
      ChunkingIrrelevant(stream, from + 2 * chunks[0], chunks[1..]);
      HitsSplit(stream, from, Sum(chunks), chunks[0]);
    }
  }

  function Min(a: nat, b: nat): nat
  {
    if a <= b then a else b
  }

  /** The batch sizes `EstimatePi` uses for `remaining` samples: full chunks, then the rest. */
  function ChunkPlan(remaining: nat): seq<nat>
    decreases remaining
  {
    if remaining == 0 then []
    else
      var b := Min(CHUNK_SIZE, remaining);
      [b] + ChunkPlan(remaining - b)
  }

  /** The plan adds up to exactly `remaining`, never overshooting; every batch
      holds between 1 and `CHUNK_SIZE` points, and all but the last are full. */
  lemma {:induction false} ChunkPlanShape(remaining: nat)
    ensures Sum(ChunkPlan(remaining)) == remaining
    ensures forall i :: 0 <= i < |ChunkPlan(remaining)| ==> 1 <= ChunkPlan(remaining)[i] <= CHUNK_SIZE
    ensures forall i :: 0 <= i < |ChunkPlan(remaining)| - 1 ==> ChunkPlan(remaining)[i] == CHUNK_SIZE
    decreases remaining
  {
    if remaining > 0 {
      var b := Min(CHUNK_SIZE, remaining);
      var plan := ChunkPlan(remaining);
      ChunkPlanShape(remaining - b);
      assert plan[1..] == ChunkPlan(remaining - b);
      forall i | 0 < i < |plan|
        ensures plan[i] == ChunkPlan(remaining - b)[i - 1]
      {
      }
    }
  }

  /** The state of the `estimate_pi` loop after `total` of the `numSamples`
      points: `hits` counts them, and `plan` holds the batch sizes used so far,
      a prefix of the full plan. */
  ghost predicate Accumulated(stream: nat -> Unit, start: nat, numSamples: nat, plan: seq<nat>, hits: nat, total: nat)
  {
    total <= numSamples && hits == CountHits(stream, start, total)
    && plan + ChunkPlan(numSamples - total) == ChunkPlan(numSamples)
  }

  /** One pass of the `estimate_pi` loop, from state (`plan0`, `hits0`,
      `total0`) to (`plan`, `hits`, `total`), keeps `Accumulated`. */
  lemma AccumulateStep(stream: nat -> Unit, start: nat, numSamples: nat,
                       plan0: seq<nat>, hits0: nat, total0: nat, plan: seq<nat>, hits: nat, total: nat)
    requires Accumulated(stream, start, numSamples, plan0, hits0, total0)
    requires total0 < numSamples && total == total0 + Min(CHUNK_SIZE, numSamples - total0)
    requires hits == hits0 + CountHits(stream, start + 2 * total0, total - total0)
    requires plan == plan0 + [total - total0]
    ensures Accumulated(stream, start, numSamples, plan, hits, total)
  {
    HitsSplit(stream, start, total, total0);
    PlanStep(numSamples, plan0, total0, plan, total);
  }

  /** The next batch of the loop is the next entry of the plan. */
  lemma PlanStep(numSamples: nat, plan0: seq<nat>, total0: nat, plan: seq<nat>, total: nat)
    requires total0 < numSamples && total == total0 + Min(CHUNK_SIZE, numSamples - total0)
    requires plan0 + ChunkPlan(numSamples - total0) == ChunkPlan(numSamples)
    requires plan == plan0 + [total - total0]
    ensures plan + ChunkPlan(numSamples - total) == ChunkPlan(numSamples)
  {
    assert ChunkPlan(numSamples - total0) == [total - total0] + ChunkPlan(numSamples - total);
    assert plan0 + ([total - total0] + ChunkPlan(numSamples - total)) == plan + ChunkPlan(numSamples - total);
  }

  /** The estimate `4 * hits / total`, as a real number. */
  function Estimate(hits: nat, total: nat): (e: real)
    requires 0 < total
    ensures 0.0 <= e
    ensures hits <= total ==> e <= 4.0
    ensures hits == 0 ==> e == 0.0
  {
    var e := (4 * hits) as real / total as real;
    assert hits <= total ==> e <= 4.0 by {
      if hits <= total {
        assert e * total as real == (4 * hits) as real;
        assert (4 * hits) as real <= 4.0 * total as real;
      }
    }
    e
  }

  /** `run_batch`: draws `batchSize` points, x then y, and counts the hits. */
  method RunBatch(batchSize: int, rng: RandomSource) returns (r: Result<Batch>)
    modifies rng
    ensures batchSize <= 0 ==>
      && r == Err(BatchSizeNotPositive)
      && rng.cursor == old(rng.cursor)
    ensures 0 < batchSize ==>
      && r == Ok(Batch(CountHits(rng.stream, old(rng.cursor), batchSize), batchSize))
      && rng.cursor == old(rng.cursor) + 2 * batchSize
  {
    if batchSize <= 0 {
      return Err(BatchSizeNotPositive);
    }
    ghost var stream, start := rng.stream, rng.cursor;
    var hits := 0;
    for i := 0 to batchSize
      invariant rng.stream == stream && rng.cursor == start + 2 * i
      invariant hits + CountHits(stream, rng.cursor, batchSize - i) == CountHits(stream, start, batchSize)
    {
      var x := rng.Uniform(-1.0, 1.0);
      var y := rng.Uniform(-1.0, 1.0);
      hits := hits + (if IsHit(Point(x, y)) then 1 else 0);
    }
    return Ok(Batch(hits, batchSize));
  }

  /** `estimate_pi`: runs batches of at most `CHUNK_SIZE` points until exactly
      `numSamples` have been drawn, then returns `4 * hits / total`. The ghost
      `plan` records the batch sizes used. */
  method EstimatePi(numSamples: int, rng: RandomSource) returns (r: Result<real>, ghost plan: seq<nat>)
    modifies rng
    ensures numSamples <= 0 ==>
      && r == Err(NumSamplesNotPositive)
      && rng.cursor == old(rng.cursor)
    ensures 0 < numSamples ==>
      && plan == ChunkPlan(numSamples)
      && rng.cursor == old(rng.cursor) + 2 * numSamples
      && r == Ok(Estimate(CountHits(rng.stream, old(rng.cursor), numSamples), numSamples))
      && 0.0 <= r.value <= 4.0
  {
    plan := [];
    if numSamples <= 0 {
      return Err(NumSamplesNotPositive), plan;
    }
    ghost var stream, start := rng.stream, rng.cursor;
    var hits, total := 0, 0;
    while total < numSamples
      invariant rng.stream == stream && rng.cursor == start + 2 * total
      invariant Accumulated(stream, start, numSamples, plan, hits, total)
      decreases numSamples - total
    {
      ghost var plan0, hits0, total0 := plan, hits, total;
      var batch := Min(CHUNK_SIZE, numSamples - total);
      var res := RunBatch(batch, rng);
      var h, n := res.value.hits, res.value.total;
      hits, total := hits + h, total + n;
      plan := plan + [batch];
      AccumulateStep(stream, start, numSamples, plan0, hits0, total0, plan, hits, total);
    }
    assert plan + [] == plan;
    return Ok(Estimate(hits, total)), plan;
  }
}

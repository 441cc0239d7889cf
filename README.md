# Monte Carlo π estimator — verified model

The system estimates π by drawing points uniformly in the square
[-1, 1] × [-1, 1] and counting the fraction that fall inside the unit circle.
This project models its two parts that carry logic:

- **The counting engine** (`pi_core.py`).
  - `run_batch` draws a batch of points, x first and then y, and counts the
    hits.
  - `estimate_pi` splits a sample count into batches of at most 10 000 points,
    accumulates their hits and returns `4 * hits / total`.
  - Both reject a non-positive size with a `ValueError`.
- **The session bookkeeping** of the visualizer window (`main.py`).
  - The window keeps a running flag, the running `hits` and `total`, the time
    of the first start and the plotted series of estimates, bounded to the
    newest 800 points.
  - It also keeps the chart's x-axis extent.
  - Three callbacks change this state: start/stop, reset, and the timer tick.

Files:

- `random_source.dfy` (module `Random`) models the generator.
  - A `random.Random` is the infinite stream of values its `random()` would
    return, plus a cursor counting the draws made so far.
  - `uniform(lo, hi)` is `lo + (hi - lo) * random()` and consumes one draw.
- `pi_core.dfy` (module `PiCore`) holds the counting engine.
  - `RunBatch` and `EstimatePi` are methods with the source's loops.
  - Each is proved against specification functions over the stream:
    - `CountHits`: hits among the next `n` points.
    - `ChunkPlan`: the batch sizes used.
    - `Estimate`: the estimate formula.
  - Lemmas give the properties of these functions: a count splits at any
    point, and any chunking gives the same count.
- `session.dfy` (module `Visualizer`) holds the session state.
  - `Session` is a class whose fields are the state the callbacks update.
  - It has one method per callback, and `Valid()` is the invariant every
    callback keeps.

Numbers are modelled as mathematical reals and integers, not floats.

## Model

| member | source | states |
|---|---|---|
| Random.UniformAt | pi_core.py:18-19 | the value of `uniform(lo, hi)` lies in [lo, hi] whenever lo <= hi |
| Random.RandomSource.Uniform | pi_core.py:18-19 | one `uniform` call returns the value at the current draw and consumes exactly one draw |
| PiCore.CountHits | pi_core.py:16-21 | the hits among `n` points drawn two draws apiece never exceed `n` |
| PiCore.SinglePointCount | pi_core.py:20 | a single point counts as a hit exactly when x*x + y*y <= 1.0, so a point on the circle counts |
| PiCore.BoundaryPointIsHit | pi_core.py:18-20 | draws 0.0 then 0.5 give the point (-1.0, 0.0) on the circle, and it counts as one hit |
| PiCore.CornerPointIsMiss | pi_core.py:18-20 | draws 0.0 then 0.0 give the corner (-1.0, -1.0), outside the circle, and it counts as no hit |
| PiCore.HitsSplit | pi_core.py:33-37 | counting `n` points equals counting the first `a` plus the remaining `n - a` drawn after them |
| PiCore.ChunkingIrrelevant | pi_core.py:32-37 | for any sequence of batch sizes, the summed batch counts equal one count over the total number of points |
| PiCore.ChunkPlanShape | pi_core.py:33-34 | the batch sizes add up to exactly the requested samples (no overshoot); each is between 1 and 10 000; all but the last are 10 000 |
| PiCore.PlanStep | pi_core.py:34 | each loop pass takes the next batch size of the plan |
| PiCore.AccumulateStep | pi_core.py:33-37 | one loop pass keeps the invariant: hits count all points drawn so far, and the batches used are a prefix of the plan |
| PiCore.Estimate | pi_core.py:38 | `4 * hits / total` lies in [0, 4] when hits <= total, and is 0 with no hits |
| PiCore.RunBatch | pi_core.py:10-21 | a size <= 0 gives the batch-size error and draws nothing; otherwise the result is (hits among the next `batchSize` points, `batchSize`) and exactly 2 * batchSize draws are consumed |
| PiCore.EstimatePi | pi_core.py:24-38 | a count <= 0 gives the sample-count error and draws nothing; otherwise the batches follow the plan, exactly 2 * numSamples draws are consumed, and the result is 4 * hits / numSamples over the first numSamples points, within [0, 4] |
| Visualizer.Newest | main.py:106-108 | for k >= 1, the trimmed series is the suffix of the appended one, of length min(length, k) |
| Visualizer.NewestAppend | main.py:106-108 | for k >= 2, appending to a window of the newest k keeps the newest k - 1 old entries in order plus the new one: the oldest is evicted first |
| Visualizer.SeriesAppend | main.py:104-108 | appending the estimate for a larger total and trimming keeps the series bounded by 800, increasing in x, with estimates in [0, 4] and the current estimate last |
| Visualizer.TickKeepsSession | main.py:100-109 | a running tick that adds 500 samples with at most 500 hits, appends and trims the series, and widens the axis to max(old, total) keeps the session invariant: hits <= total, total a multiple of 500, a start time while running, the axis at least 1000 and at least total, and a well-formed series |
| Visualizer.Session.constructor | main.py:24-46 | the window opens stopped, with no samples, no start time, an empty series and an x-axis of 1000, satisfying the invariant |
| Visualizer.Session.ToggleRun | main.py:70-75 | running flips; the start time is set only when starting without one; counts, series and axis are unchanged; the invariant is kept |
| Visualizer.Session.Reset | main.py:80-88 | running false, hits and total 0, no start time, empty series, x-axis 1000; the invariant holds |
| Visualizer.Session.OnTick | main.py:94-109 | while stopped nothing changes and nothing is drawn; while running, one batch of 500 is added, the new (total, estimate) point is appended and the series trimmed to the newest 800, and the x-axis becomes max(old, total), so it never shrinks; the invariant is kept |

## Left out

- The Flet user interface is not modelled: widget construction, label
  formatting, button icons and texts, page and chart refreshes, and chart
  styling. It is presentation only.
- The 10 Hz timer that schedules `on_tick` is not modelled. The model
  describes what one tick does, not when ticks happen.
- The wall clock is not modelled. `datetime.now()` becomes the `now`
  parameter of `ToggleRun`, and the elapsed-time label is presentation.
- The Mersenne Twister behind `random.Random` is not modelled. A generator is
  any stream of values in [0, 1).
- The entropy-seeded fallback `rng or random.Random()` is not modelled.
  Callers always supply a `RandomSource`. This includes `on_tick`, which in
  the source takes a fresh unseeded generator on every call.
- Floating-point rounding in `uniform`, `x*x + y*y` and `4*hits/total` is not
  modelled. Real arithmetic stands in for it, so a point rounded across the
  circle's boundary is classified by its exact value.
- The seeded reference results are not stated: 8 hits for seed 0, the
  estimate 3.072, and closeness to π for 50 000 samples. They depend on the
  concrete generator stream and on statistical convergence.

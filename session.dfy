/**
  The bookkeeping behind the visualizer's window: whether sampling is
  running, the running totals, when the first run started, the series of
  estimates plotted so far and the chart's x-axis extent. The widgets
  themselves are not modelled.
 */
module Visualizer {
  import opened Random
  import opened PiCore

  /** Points drawn per timer tick. */
  const BATCH_SIZE: nat := 500

  /** The chart keeps at most this many of the most recent estimates. */
  const MAX_POINTS: nat := 800

  /** The chart's x-axis extent when the window opens and after a reset. */
  const INITIAL_MAX_X: int := 1000

  /** A wall-clock reading, as read by `datetime.now()`. */
  type Time = int

  datatype Option<T> = None | Some(value: T)

  /** One plotted estimate: `y` is the estimate after `x` samples. */
  datatype DataPoint = DataPoint(x: int, y: real)

  /** The last `k` elements of `s`, or all of `s` when it has no more than `k`:
      the list trimmed to its newest `k` entries as `s[-k:]` does. `k` is at
      least one, since Python's `s[-0:]` would keep the whole list. */
  function Newest<T>(s: seq<T>, k: nat): (r: seq<T>)
    requires 1 <= k
    ensures |r| == (if |s| <= k then |s| else k)
    ensures r == s[|s| - |r|..]
  {
    if |s| > k then s[|s| - k..] else s
  }

  /** Appending to a window of the newest `k` keeps the newest `k - 1` of what
      was there, in order, followed by the new element: the oldest entry is
      the one evicted. */
  lemma NewestAppend<T>(s: seq<T>, x: T, k: nat)
    requires 2 <= k
    ensures Newest(s + [x], k) == Newest(s, k - 1) + [x]
  {
    var r, q := Newest(s + [x], k), Newest(s, k - 1);
    assert |r| == |q| + 1;
    forall i | 0 <= i < |r|
      ensures r[i] == (q + [x])[i]
    {
      if i < |q| {
        assert r[i] == (s + [x])[|s| + 1 - |r| + i];
      }
    }
  }

  /** The x values of the series strictly increase from oldest to newest. */
  predicate Increasing(ps: seq<DataPoint>)
  {
    forall i, j :: 0 <= i < j < |ps| ==> ps[i].x < ps[j].x
  }

  /** Every plotted estimate lies in [0, 4]. */
  predicate InRange(ps: seq<DataPoint>)
  {
    forall i :: 0 <= i < |ps| ==> 0.0 <= ps[i].y <= 4.0
  }

  /** Dropping the oldest points keeps a series increasing and in range. */
  lemma SuffixKeeps(ps: seq<DataPoint>, d: nat)
    requires d <= |ps| && Increasing(ps) && InRange(ps)
    ensures Increasing(ps[d..]) && InRange(ps[d..])
  {
    var r := ps[d..];
    forall i, j | 0 <= i < j < |r|
      ensures r[i].x < r[j].x
    {
      assert r[i] == ps[d + i] && r[j] == ps[d + j];
    }
    forall i | 0 <= i < |r|
      ensures 0.0 <= r[i].y <= 4.0
    {
      assert r[i] == ps[d + i];
    }
  }

  /** What the plotted series holds after `total` samples with `hits` hits:
      at most `MAX_POINTS` points, none before the first sample, x values
      increasing, every estimate in [0, 4], and the newest point the current
      estimate. */
  ghost predicate SeriesOk(ps: seq<DataPoint>, hits: nat, total: nat)
  {
    && |ps| <= MAX_POINTS
    && (ps == [] <==> total == 0)
    && (ps != [] ==> ps[|ps| - 1] == DataPoint(total, Estimate(hits, total)))
    && Increasing(ps)
    && InRange(ps)
  }

  /** Appending the estimate for a larger total and trimming to the newest
      `MAX_POINTS` keeps the series well formed. */
  lemma SeriesAppend(ps: seq<DataPoint>, hits0: nat, total0: nat, hits: nat, total: nat)
    requires SeriesOk(ps, hits0, total0)
    requires total0 < total && hits <= total
    ensures SeriesOk(Newest(ps + [DataPoint(total, Estimate(hits, total))], MAX_POINTS), hits, total)
  {
    var p := DataPoint(total, Estimate(hits, total));
    var appended := ps + [p];
    assert Increasing(appended) by {
      forall i, j | 0 <= i < j < |appended|
        ensures appended[i].x < appended[j].x
      {
        if j == |ps| {
          assert appended[i] == ps[i];
          if i < |ps| - 1 {
            assert ps[i].x < ps[|ps| - 1].x;
          }
        } else {
          assert appended[i] == ps[i] && appended[j] == ps[j];
        }
      }
    }
    assert InRange(appended) by {
      forall i | 0 <= i < |appended|
        ensures 0.0 <= appended[i].y <= 4.0
      {
        if i < |ps| {
          assert appended[i] == ps[i];
        }
      }
    }
    var r := Newest(appended, MAX_POINTS);
    SuffixKeeps(appended, |appended| - |r|);
    assert r[|r| - 1] == p;
  }

  /** What every callback keeps: at most `total` hits, whole ticks of
      samples, a start time once running, an x-axis wide enough for the
      samples, and a bounded series whose newest point is the current
      estimate. */
  ghost predicate SessionOk(running: bool, hits: nat, total: nat, startTime: Option<Time>,
                            points: seq<DataPoint>, maxX: int)
  {
    && hits <= total
    && total % BATCH_SIZE == 0
    && (running ==> startTime.Some?)
    && INITIAL_MAX_X <= maxX
    && total <= maxX
    && SeriesOk(points, hits, total)
  }

  /** A tick while running, from (`hits0`, `total0`, `points0`, `maxX0`) to
      (`hits`, `total`, `points`, `maxX`), keeps `SessionOk`: one batch of at
      most `BATCH_SIZE` hits, the new estimate appended and trimmed, and the
      axis widened to the total. */
  lemma TickKeepsSession(startTime: Option<Time>, hits0: nat, total0: nat, points0: seq<DataPoint>, maxX0: int,
                         hits: nat, total: nat, points: seq<DataPoint>, maxX: int)
    requires SessionOk(true, hits0, total0, startTime, points0, maxX0)
    requires total == total0 + BATCH_SIZE && hits0 <= hits <= hits0 + BATCH_SIZE
    requires points == Newest(points0 + [DataPoint(total, Estimate(hits, total))], MAX_POINTS)
    requires maxX == (if maxX0 >= total then maxX0 else total)
    ensures SessionOk(true, hits, total, startTime, points, maxX)
  {
    assert total % BATCH_SIZE == 0 by {
      assert total == total0 + BATCH_SIZE;
    }
    SeriesAppend(points0, hits0, total0, hits, total);
  }

  /** The state a window of the visualizer keeps between callbacks. */
  class Session {
    var running: bool
    var hits: nat
    var total: nat
    var startTime: Option<Time>
    var points: seq<DataPoint>
    var maxX: int

    /** What every callback keeps; see `SessionOk`. */
    ghost predicate Valid()
      reads this
    {
      SessionOk(running, hits, total, startTime, points, maxX)
    }

    /** The state when the window opens: stopped, no samples, no start time,
        an empty series and the initial x-axis. */
    constructor ()
      ensures !running && hits == 0 && total == 0 && startTime == None
      ensures points == [] && maxX == INITIAL_MAX_X
      ensures Valid()
    {
      running := false;
      hits := 0;
      total := 0;
      startTime := None;
      points := [];
      maxX := INITIAL_MAX_X;
    }

    /** `toggle_run`: starts or stops sampling. The start time is taken only
        on the first start since the last reset; the counts are kept. */
    method ToggleRun(now: Time)
      requires Valid()
      modifies this
      ensures running == !old(running)
      ensures startTime == (if running && old(startTime) == None then Some(now) else old(startTime))
      ensures hits == old(hits) && total == old(total)
      ensures points == old(points) && maxX == old(maxX)
      ensures Valid()
    {
      running := !running;
      if running && startTime == None {
        startTime := Some(now);
      }
    }

    /** `reset`: stops sampling and returns to the state the window opened in. */
    method Reset()
      modifies this
      ensures !running && hits == 0 && total == 0 && startTime == None
      ensures points == [] && maxX == INITIAL_MAX_X
      ensures Valid()
    {
      running := false;
      hits := 0;
      total := 0;
      startTime := None;
      points := [];
      maxX := INITIAL_MAX_X;
    }

    /** `on_tick`: while running, draws one batch from `rng`, adds it to the
        totals, appends the new estimate to the series (evicting the oldest
        point beyond `MAX_POINTS`) and widens the x-axis to cover the total.
        While stopped it changes nothing. */
    method OnTick(rng: RandomSource)
      requires Valid()
      modifies this, rng
      ensures !old(running) ==> unchanged(this) && rng.cursor == old(rng.cursor)
      ensures old(running) ==>
        && running && startTime == old(startTime)
        && hits == old(hits) + CountHits(rng.stream, old(rng.cursor), BATCH_SIZE)
        && total == old(total) + BATCH_SIZE
        && rng.cursor == old(rng.cursor) + 2 * BATCH_SIZE
        && points == Newest(old(points) + [DataPoint(total, Estimate(hits, total))], MAX_POINTS)
        && maxX == (if old(maxX) >= total then old(maxX) else total)
      ensures old(maxX) <= maxX
      ensures Valid()
    {
      if !running {
        return;
      }
      var res := RunBatch(BATCH_SIZE, rng);
      var hitBatch, nBatch := res.value.hits, res.value.total;
      var newHits, newTotal := hits + hitBatch, total + nBatch;
      var est := Estimate(newHits, newTotal);
      var series := points + [DataPoint(newTotal, est)];
      if |series| > MAX_POINTS {
        series := series[|series| - MAX_POINTS..];
      }
      var newMaxX := if maxX >= newTotal then maxX else newTotal;
      TickKeepsSession(startTime, hits, total, points, maxX, newHits, newTotal, series, newMaxX);
      hits, total, points, maxX := newHits, newTotal, series, newMaxX;
    }
  }
}

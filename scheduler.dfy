/**
 * The look-ahead arithmetic of `scheduleMelody`: how many measures one pass
 * schedules, where the cursor ends, and which events those measures hold.
 */
module Scheduler {
  import opened Config
  import opened Sequencer

  /** The number of loop passes `while (next < horizon) { ...; next += MEASURE_SECONDS }` makes. */
  function PassesNeeded(next: real, horizon: real): nat
    decreases if next < horizon then (horizon - next).Floor + 1 else 0
  {
    if next >= horizon then 0 else 1 + PassesNeeded(next + MEASURE_SECONDS, horizon)
  }

  /**
   * The events of k consecutive measures, the first starting at `start` with
   * the counter at `measureCount` before it: the first k - 1 measures, then
   * measure number `measureCount + k` at the cursor after k - 1 passes.
   */
  function Measures(measureCount: nat, start: real, k: nat): seq<Event>
    decreases k
  {
    if k == 0 then []
    else Measures(measureCount, start, k - 1) + MeasureEvents(measureCount + k, Cursor(start, k - 1))
  }

  /** After the passes the cursor is at or past the horizon, and the last pass started before it. */
  lemma {:induction false} PassesReachHorizon(next: real, horizon: real)
    ensures next + MEASURE_SECONDS * PassesNeeded(next, horizon) as real >= horizon
    ensures PassesNeeded(next, horizon) > 0
            ==> next + MEASURE_SECONDS * (PassesNeeded(next, horizon) - 1) as real < horizon
    ensures PassesNeeded(next, horizon) == 0 <==> next >= horizon
    decreases if next < horizon then (horizon - next).Floor + 1 else 0
  {
    if next < horizon {
      PassesReachHorizon(next + MEASURE_SECONDS, horizon);
    }
  }

  /** A pass that does not reach the horizon yet is followed by the remaining ones. */
  lemma PassesStep(next: real, horizon: real)
    requires next < horizon
    ensures PassesNeeded(next, horizon) == 1 + PassesNeeded(next + MEASURE_SECONDS, horizon)
  {
  }

  /** Starting the melody at audio time t schedules exactly one measure: 2 s is past the 0.1 s window. */
  lemma OnePassFromNow(t: real)
    ensures PassesNeeded(t, t + SCHEDULE_AHEAD_TIME) == 1
  {
    assert PassesNeeded(t + MEASURE_SECONDS, t + SCHEDULE_AHEAD_TIME) == 0;
  }

  /** The cursor after k passes of the look-ahead loop, one measure per pass. */
  function Cursor(start: real, k: nat): real
    decreases k
  {
    if k == 0 then start else Cursor(start, k - 1) + MEASURE_SECONDS
  }

  lemma {:induction false} CursorIsLinear(start: real, k: nat)
    ensures Cursor(start, k) == start + MEASURE_SECONDS * k as real
    decreases k
  {
    if k > 0 {
      CursorIsLinear(start, k - 1);
      assert MEASURE_SECONDS * k as real == MEASURE_SECONDS * (k - 1) as real + MEASURE_SECONDS;
    }
  }

  /** A single pass schedules exactly the next measure and moves the cursor one measure on. */
  lemma SingleMeasure(measureCount: nat, start: real)
    ensures Cursor(start, 1) == start + MEASURE_SECONDS
    ensures Measures(measureCount, start, 1) == MeasureEvents(measureCount + 1, start)
  {
    var first := MeasureEvents(measureCount + 1, start);
    assert Measures(measureCount, start, 1) == [] + first;
    assert [] + first == first;
  }

  /** One more pass appends the next measure, fetched at the cursor after `k` passes. */
  lemma MeasuresUnfold(measureCount: nat, start: real, k: nat)
    ensures Measures(measureCount, start, k + 1)
            == Measures(measureCount, start, k) + MeasureEvents(measureCount + k + 1, Cursor(start, k))
  {
    var j := k + 1;
    assert j - 1 == k && measureCount + j == measureCount + k + 1;
  }

  /** Appending to a sequence that already extends `before` by `done` extends it by `done + last`. */
  lemma AppendStep<T>(before: seq<T>, done: seq<T>, last: seq<T>, scheduled: seq<T>, after: seq<T>, total: seq<T>)
    requires scheduled == before + done && after == scheduled + last && total == done + last
    ensures after == before + total
  {
    assert (before + done) + last == before + (done + last);
  }

  /** One pass of the look-ahead loop appends the next measure to what the earlier passes scheduled. */
  lemma LookAheadStep(before: seq<Event>, measureCount: nat, start: real, k: nat,
                      scheduled: seq<Event>, count: nat, next: real, after: seq<Event>)
    requires scheduled == before + Measures(measureCount, start, k)
    requires count == measureCount + k + 1 && next == Cursor(start, k)
    requires after == scheduled + MeasureEvents(count, next)
    ensures after == before + Measures(measureCount, start, k + 1)
  {
    MeasuresUnfold(measureCount, start, k);
    AppendStep(before, Measures(measureCount, start, k), MeasureEvents(count, next), scheduled, after,
               Measures(measureCount, start, k + 1));
  }

  /** Starting one measure later is the same as one more pass. */
  lemma {:induction false} CursorShift(start: real, k: nat)
    ensures Cursor(start + MEASURE_SECONDS, k) == Cursor(start, k + 1)
    decreases k
  {
    if k > 0 {
      CursorShift(start, k - 1);
    }
  }

  /**
   * A loop that stopped at the first cursor at or past the horizon made exactly
   * PassesNeeded passes.
   */
  lemma {:induction false} PassesCount(start: real, horizon: real, k: nat)
    requires horizon <= Cursor(start, k)
    requires k == 0 || Cursor(start, k - 1) < horizon
    ensures PassesNeeded(start, horizon) == k
    decreases k
  {
    if k > 0 {
      CursorAdvances(start, k - 1);
      CursorShift(start, k - 1);
      if k > 1 {
        CursorShift(start, k - 2);
      }
      PassesCount(start + MEASURE_SECONDS, horizon, k - 1);
    }
  }

  /** The cursor never moves back. */
  lemma {:induction false} CursorAdvances(start: real, k: nat)
    ensures start <= Cursor(start, k)
    decreases k
  {
    if k > 0 {
      CursorAdvances(start, k - 1);
    }
  }

  /** The events of k measures from `start` all begin in [start, start + k measures). */
  lemma {:induction false} MeasuresWithin(measureCount: nat, start: real, k: nat)
    ensures StartsWithin(Measures(measureCount, start, k), start, start + MEASURE_SECONDS * k as real)
  {
    MeasuresWithinCursor(measureCount, start, k);
    CursorIsLinear(start, k);
  }

  /** The measures so far, then one more measure starting at the cursor, stay ahead of the new cursor. */
  lemma WithinStep(done: seq<Event>, last: seq<Event>, start: real, lastStart: real, end: real)
    requires StartsWithin(done, start, lastStart) && StartsWithin(last, lastStart, lastStart + MEASURE_SECONDS)
    requires start <= lastStart && end == lastStart + MEASURE_SECONDS
    ensures StartsWithin(done + last, start, end)
  {
    WithinWiden(done, start, lastStart, start, end);
    WithinWiden(last, lastStart, lastStart + MEASURE_SECONDS, start, end);
    WithinConcat(done, last, start, end);
  }

  lemma {:induction false} MeasuresWithinCursor(measureCount: nat, start: real, k: nat)
    ensures StartsWithin(Measures(measureCount, start, k), start, Cursor(start, k))
    decreases k
  {
    if k > 0 {
      var lastStart := Cursor(start, k - 1);
      var done := Measures(measureCount, start, k - 1);
      var last := MeasureEvents(measureCount + k, lastStart);
      MeasuresWithinCursor(measureCount, start, k - 1);
      MeasureEventsWithin(measureCount + k, lastStart);
      CursorAdvances(start, k - 1);
      WithinStep(done, last, start, lastStart, Cursor(start, k));
      assert Measures(measureCount, start, k) == done + last;
    }
  }
}

/** The elapsed-time displays of the migrator: a column that shows the time
    since it was created and a tracker that can be (re)started.  The clock is
    a parameter: `now` is the reading `time.time()` would return.
 */
module ProgressTracking {
  import opened Py
  import opened TimeFormat

  /** What `get_elapsed_time` shows for a start time (None before `start`). */
  function Elapsed(start: Option<real>, now: real): string {
    match start
    case None => "[00:00]"
    case Some(t) => Clock(Trunc(now - t))
  }

  /** What `get_total_time` returns. */
  function Total(start: Option<real>, now: real): Option<string> {
    match start
    case None => None
    case Some(t) => Some(Clock(Trunc(now - t)))
  }

  /** `CompactTimeColumn`: its start is the clock reading at creation. */
  class CompactTimeColumn {
    var startTime: real

    constructor (now: real)
      ensures startTime == now
    {
      startTime := now;
    }

    /** `render`: the whole seconds since creation as `[MM:SS]`. */
    method Render(now: real) returns (text: string)
      ensures text == Clock(Trunc(now - startTime))
    {
      var elapsed := Trunc(now - startTime);
      text := Clock(elapsed);
    }
  }

  /** `TimeTracker` */
  class TimeTracker {
    var startTime: Option<real>

    constructor ()
      ensures startTime == None
    {
      startTime := None;
    }

    /** `start`: a second call replaces the earlier start time. */
    method Start(now: real)
      modifies this
      ensures startTime == Some(now)
    {
      startTime := Some(now);
    }

    method GetElapsedTime(now: real) returns (text: string)
      ensures text == Elapsed(startTime, now)
    {
      if startTime.None? {
        return "[00:00]";
      }
      var elapsed := Trunc(now - startTime.value);
      text := Clock(elapsed);
    }

    method GetTotalTime(now: real) returns (text: Option<string>)
      ensures text == Total(startTime, now)
    {
      if startTime.None? {
        return None;
      }
      var total := Trunc(now - startTime.value);
      text := Some(Clock(total));
    }
  }

  // ------------------------------------------------------------ lemmas

  /** Before `start` the elapsed time shows zero seconds and there is no
      total; after it, the total is the elapsed time. */
  lemma TotalIsElapsed(start: Option<real>, now: real)
    ensures start.None? ==> Elapsed(start, now) == Clock(0) && Total(start, now).None?
    ensures start.Some? ==> Total(start, now) == Some(Elapsed(start, now))
  {
    if start.None? {
      assert Pad2(0) == "00";
    }
  }

  /** Once the clock has not gone back, the shown text reads back as the
      whole seconds elapsed, truncated. */
  lemma ElapsedReadsBack(t: real, now: real)
    requires now >= t
    ensures Trunc(now - t) >= 0
    ensures ParseClock(Elapsed(Some(t), now)) == Some(Trunc(now - t))
  {
    var e := Trunc(now - t);
    TruncBounds(now - t);
    ElapsedReadsAs(Some(t), now, e);
  }

  /** Once started, the display reads back as the whole seconds elapsed. */
  lemma ElapsedReadsAs(start: Option<real>, now: real, e: int)
    requires start.Some? && e >= 0 && e == Trunc(now - start.value)
    ensures ParseClock(Elapsed(start, now)) == Some(e)
  {
    ClockRoundTrip(e);
  }
}

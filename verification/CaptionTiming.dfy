/** The caption track: from cast intervals and recorded view switches to segments that tile the GIF. */
module CaptionTiming {
  function Min(a: real, b: real): real { if a <= b then a else b }
  function Max(a: real, b: real): real { if a >= b then a else b }

  // ---- gifTimes ---------------------------------------------------------------------

  /** GIF time after the first `n` intervals: each cut to the idle limit, then sped up. */
  function Elapsed(intervals: seq<real>, n: nat, idle: real, speed: real): real
    requires n <= |intervals| && speed > 0.0
  {
    if n == 0 then 0.0 else Elapsed(intervals, n - 1, idle, speed) + Min(intervals[n - 1], idle) / speed
  }

  method GifTimes(intervals: seq<real>, idle: real, speed: real) returns (times: seq<real>)
    requires speed > 0.0
    ensures |times| == |intervals|
    ensures forall i :: 0 <= i < |times| ==> times[i] == Elapsed(intervals, i + 1, idle, speed)
    ensures forall i :: 0 <= i < |times| ==> Follows(times, i, Lapse(intervals[i], idle, speed))
  {
    var t := 0.0;
    times := [];
    for i := 0 to |intervals|
      invariant t == Elapsed(intervals, i, idle, speed) && |times| == i
      invariant forall k :: 0 <= k < i ==> times[k] == Elapsed(intervals, k + 1, idle, speed)
    {
      t := t + Min(intervals[i], idle) / speed;
      times := times + [t];
    }
    forall i | 0 <= i < |times| ensures Follows(times, i, Lapse(intervals[i], idle, speed)) {
      ElapsedStep(intervals, i, idle, speed);
    }
  }

  /** The `i`-th time is this much later than the one before it, the first than the start. */
  predicate Follows(times: seq<real>, i: nat, lapse: real)
    requires i < |times|
  {
    times[i] == (if i == 0 then 0.0 else times[i - 1]) + lapse
  }

  /** An interval within the idle limit lasts as long as it did, sped up; a longer one as long as the limit. */
  function Lapse(interval: real, idle: real, speed: real): real
    requires speed > 0.0
  {
    if interval <= idle then interval / speed else idle / speed
  }

  lemma ElapsedStep(intervals: seq<real>, i: nat, idle: real, speed: real)
    requires i < |intervals| && speed > 0.0
    ensures Elapsed(intervals, 0, idle, speed) == 0.0
    ensures Elapsed(intervals, i + 1, idle, speed) == Elapsed(intervals, i, idle, speed) + Lapse(intervals[i], idle, speed)
  {}

  ghost predicate NonNegative(s: seq<real>) {
    forall i :: 0 <= i < |s| ==> 0.0 <= s[i]
  }

  ghost predicate Ascending(s: seq<real>) {
    forall i, j :: 0 <= i <= j < |s| ==> s[i] <= s[j]
  }

  lemma {:induction false} ElapsedGrows(intervals: seq<real>, i: nat, j: nat, idle: real, speed: real)
    requires i <= j <= |intervals| && speed > 0.0 && 0.0 <= idle && NonNegative(intervals)
    ensures 0.0 <= Elapsed(intervals, i, idle, speed) <= Elapsed(intervals, j, idle, speed)
    decreases j
  {
    if i < j {
      ElapsedGrows(intervals, i, j - 1, idle, speed);
      Quotient(Min(intervals[j - 1], idle), speed);
    } else if 0 < i {
      ElapsedGrows(intervals, i - 1, i - 1, idle, speed);
      Quotient(Min(intervals[i - 1], idle), speed);
    }
  }

  lemma Quotient(a: real, b: real)
    requires 0.0 <= a && 0.0 < b
    ensures 0.0 <= a / b
  {}

  // ---- gifTimeAt --------------------------------------------------------------------

  /** The instant of the event `n`, in milliseconds. */
  function Instant(start: real, intervals: seq<real>, n: nat): real
    requires n <= |intervals|
  {
    if n == 0 then start * 1000.0 else Instant(start, intervals, n - 1) + intervals[n - 1] * 1000.0
  }

  /** The first event at or after an instant. */
  ghost predicate FirstAt(start: real, intervals: seq<real>, at: real, i: nat)
    requires i < |intervals|
  {
    && Instant(start, intervals, i + 1) >= at
    && forall k :: 1 <= k <= i ==> Instant(start, intervals, k) < at
  }

  method GifTimeAt(start: real, intervals: seq<real>, times: seq<real>, at: real) returns (t: real)
    requires |times| == |intervals|
    ensures t == TimeAt(start, intervals, times, at)
    ensures (exists i :: 0 <= i < |times| && FirstAt(start, intervals, at, i) && t == times[i])
         || ((forall k :: 1 <= k <= |intervals| ==> Instant(start, intervals, k) < at)
             && t == if |times| == 0 then 0.0 else times[|times| - 1])
  {
    var abs := start * 1000.0;
    for i := 0 to |intervals|
      invariant abs == Instant(start, intervals, i)
      invariant forall k :: 1 <= k <= i ==> Instant(start, intervals, k) < at
      invariant TimeAt(start, intervals, times, at) == TimeFrom(start, intervals, times, at, i)
    {
      abs := abs + intervals[i] * 1000.0;
      if abs >= at {
        assert FirstAt(start, intervals, at, i);
        return times[i];
      }
    }
    t := if |times| == 0 then 0.0 else times[|times| - 1];
  }

  function TimeFrom(start: real, intervals: seq<real>, times: seq<real>, at: real, i: nat): real
    requires |times| == |intervals| && i <= |times|
    decreases |times| - i
  {
    if i == |times| then (if |times| == 0 then 0.0 else times[|times| - 1])
    else if Instant(start, intervals, i + 1) >= at then times[i]
    else TimeFrom(start, intervals, times, at, i + 1)
  }

  function TimeAt(start: real, intervals: seq<real>, times: seq<real>, at: real): real
    requires |times| == |intervals|
  {
    TimeFrom(start, intervals, times, at, 0)
  }

  /** A later instant has no earlier GIF time — whatever the intervals, if the times ascend. */
  lemma {:induction false} TimeFromGrows(start: real, intervals: seq<real>, times: seq<real>, a: real, b: real, i: nat)
    requires |times| == |intervals| && i <= |times| && Ascending(times) && a <= b
    ensures TimeFrom(start, intervals, times, a, i) <= TimeFrom(start, intervals, times, b, i)
    decreases |times| - i
  {
    if i < |times| {
      if Instant(start, intervals, i + 1) >= a {
        TimeFromReaches(start, intervals, times, b, i);
      } else {
        TimeFromGrows(start, intervals, times, a, b, i + 1);
      }
    }
  }

  lemma {:induction false} TimeFromReaches(start: real, intervals: seq<real>, times: seq<real>, at: real, i: nat)
    requires |times| == |intervals| && i < |times| && Ascending(times)
    ensures times[i] <= TimeFrom(start, intervals, times, at, i)
    decreases |times| - i
  {
    if Instant(start, intervals, i + 1) < at && i + 1 < |times| {
      TimeFromReaches(start, intervals, times, at, i + 1);
    }
  }

  // ---- snapToFrame ------------------------------------------------------------------

  const SLACK: real := 0.1

  function Snap(t: real, frames: seq<real>): real {
    if frames == [] then t
    else if frames[0] >= t - SLACK then frames[0]
    else Snap(t, frames[1..])
  }

  /** The frame taken is one of the grid, no earlier than the slack allows, and the first such. */
  lemma {:induction false} SnapIs(t: real, frames: seq<real>)
    ensures (exists i :: 0 <= i < |frames| && frames[i] == Snap(t, frames) >= t - SLACK
               && forall k :: 0 <= k < i ==> frames[k] < t - SLACK)
         || (Snap(t, frames) == t && forall k :: 0 <= k < |frames| ==> frames[k] < t - SLACK)
  {
    if frames != [] && frames[0] < t - SLACK {
      SnapIs(t, frames[1..]);
      if i :| 0 <= i < |frames[1..]| && frames[1..][i] == Snap(t, frames) >= t - SLACK
                && forall k :: 0 <= k < i ==> frames[1..][k] < t - SLACK {
        assert frames[i + 1] == Snap(t, frames);
        forall k | 0 <= k < i + 1 ensures frames[k] < t - SLACK {
          if k > 0 { assert frames[1..][k - 1] < t - SLACK; }
        }
      } else {
        forall k | 0 <= k < |frames| ensures frames[k] < t - SLACK {
          if k > 0 { assert frames[1..][k - 1] < t - SLACK; }
        }
      }
    }
  }

  lemma {:induction false} SnapGrows(a: real, b: real, frames: seq<real>)
    requires a <= b && Ascending(frames)
    ensures Snap(a, frames) <= Snap(b, frames)
  {
    SnapIs(a, frames);
    SnapIs(b, frames);
  }

  lemma SnapNonNegative(t: real, frames: seq<real>)
    requires 0.0 <= t && NonNegative(frames)
    ensures 0.0 <= Snap(t, frames)
  {
    SnapIs(t, frames);
  }

  // ---- segments ---------------------------------------------------------------------

  datatype View = View(at: real, why: string)
  datatype Segment = Segment(from: real, to: real, text: string)

  /** Where a view switch falls in the GIF. */
  datatype Clock = Clock(start: real, intervals: seq<real>, times: seq<real>)

  ghost predicate Ticking(c: Clock) {
    |c.times| == |c.intervals| && Ascending(c.times) && NonNegative(c.times)
  }

  function StartOf(c: Clock, views: seq<View>, frames: seq<real>, i: nat): real
    requires i < |views| && |c.times| == |c.intervals|
  {
    if i == 0 then 0.0 else Snap(Max(0.0, TimeAt(c.start, c.intervals, c.times, views[i].at)), frames)
  }

  function Segments(c: Clock, views: seq<View>, end: real, frames: seq<real>): (r: seq<Segment>)
    requires |c.times| == |c.intervals|
  {
    seq(|views|, i requires 0 <= i < |views| =>
      Segment(StartOf(c, views, frames, i),
              if i + 1 < |views| then StartOf(c, views, frames, i + 1) else end,
              views[i].why))
  }

  ghost predicate InTime(views: seq<View>) {
    forall i, j :: 0 <= i <= j < |views| ==> views[i].at <= views[j].at
  }

  lemma StartsGrow(c: Clock, views: seq<View>, frames: seq<real>, i: nat, j: nat)
    requires Ticking(c) && InTime(views) && Ascending(frames) && NonNegative(frames) && i <= j < |views|
    ensures 0.0 <= StartOf(c, views, frames, i) <= StartOf(c, views, frames, j)
  {
    var a := TimeAt(c.start, c.intervals, c.times, views[i].at);
    var b := TimeAt(c.start, c.intervals, c.times, views[j].at);
    TimeFromGrows(c.start, c.intervals, c.times, views[i].at, views[j].at, 0);
    SnapGrows(Max(0.0, a), Max(0.0, b), frames);
    SnapNonNegative(Max(0.0, a), frames);
    SnapNonNegative(Max(0.0, b), frames);
  }

  /** The times `gifTimes` makes of intervals that are not negative. */
  ghost predicate FromIntervals(c: Clock, idle: real, speed: real) {
    && speed > 0.0 && 0.0 <= idle && NonNegative(c.intervals) && |c.times| == |c.intervals|
    && forall i :: 0 <= i < |c.times| ==> c.times[i] == Elapsed(c.intervals, i + 1, idle, speed)
  }

  /** Where the caption of a view switch may begin: the frame of its GIF time, or that time where no frame is left. */
  ghost predicate BeginsAt(c: Clock, at: real, frames: seq<real>, from: real)
    requires |c.times| == |c.intervals|
  {
    var t := Max(0.0, TimeAt(c.start, c.intervals, c.times, at));
    || (exists i :: 0 <= i < |frames| && frames[i] == from >= t - SLACK && forall k :: 0 <= k < i ==> frames[k] < t - SLACK)
    || (from == t && forall k :: 0 <= k < |frames| ==> frames[k] < t - SLACK)
  }

  /** Every caption but the first begins at the first frame that is not more than the slack before its switch. */
  lemma CaptionsBegin(c: Clock, views: seq<View>, end: real, frames: seq<real>, i: nat)
    requires |c.times| == |c.intervals| && 0 < i < |views|
    ensures BeginsAt(c, views[i].at, frames, Segments(c, views, end, frames)[i].from)
  {
    SnapIs(Max(0.0, TimeAt(c.start, c.intervals, c.times, views[i].at)), frames);
  }

  lemma TimesTick(c: Clock, idle: real, speed: real)
    requires FromIntervals(c, idle, speed)
    ensures Ticking(c)
  {
    forall i, j | 0 <= i <= j < |c.times| ensures 0.0 <= c.times[i] <= c.times[j] {
      ElapsedGrows(c.intervals, i + 1, j + 1, idle, speed);
    }
  }

  /**
    The captions tile the GIF: one for each view switch, in order; the first begins at 0, each ends where
    the next begins and the last at the end, and no caption begins before the one it follows.
  */
  lemma {:induction false} CaptionsTile(c: Clock, idle: real, speed: real, views: seq<View>, end: real, frames: seq<real>)
    requires FromIntervals(c, idle, speed) && InTime(views) && Ascending(frames) && NonNegative(frames)
    ensures var s := Segments(c, views, end, frames);
      && |s| == |views| && (forall i :: 0 <= i < |s| ==> s[i].text == views[i].why)
      && (|s| > 0 ==> s[0].from == 0.0 && s[|s| - 1].to == end)
      && (forall i :: 0 <= i < |s| - 1 ==> s[i].to == s[i + 1].from)
      && (forall i, j :: 0 <= i <= j < |s| ==> 0.0 <= s[i].from <= s[j].from)
  {
    TimesTick(c, idle, speed);
    forall i, j | 0 <= i <= j < |views|
      ensures 0.0 <= StartOf(c, views, frames, i) <= StartOf(c, views, frames, j)
    {
      StartsGrow(c, views, frames, i, j);
    }
  }
}

/**
 * Helpers shared by every worker: the timestamp bounds, the naming rule of
 * named workers, the upload-token check and the drift-corrected scheduler.
 */
module Misc {
  import opened Wrappers
  import Settings

  /** The default lower and upper bounds of a trade time window (2^63 - 1). */
  const MinTimestamp: int := 0
  const MaxTimestamp: int := 0x7FFF_FFFF_FFFF_FFFF

  /**
   * The name a worker reports: its own `_name` when one was set, otherwise
   * the name of its class.
   */
  function NameOf(ownName: Option<string>, className: string): (r: string)
    ensures ownName.Some? ==> r == ownName.value
    ensures ownName.None? ==> r == className
  {
    ownName.GetOr(className)
  }

  /** Upload authorisation: exact equality with the configured token. */
  function CheckAuthToken(s: Settings.Settings, authToken: string): (r: bool)
    ensures r <==> authToken == s.uploadToken
  {
    authToken == s.uploadToken
  }

  /** `x` lies on the grid of period `delay` through `origin`. */
  ghost predicate OnGrid(origin: int, delay: int, x: int)
    requires delay > 0
  {
    (x - origin) % delay == 0
  }

  /** `x` is the first point of the grid through `origin` strictly after `after`. */
  ghost predicate IsNextTick(origin: int, delay: int, after: int, x: int)
    requires delay > 0
  {
    after < x && x - delay <= after && OnGrid(origin, delay, x)
  }

  /**
   * The scheduler's update of `next_time` once a task has finished at
   * `finishedAt`; `/` is floor division here because `delay` is positive.
   */
  function NextTime(nextTime: int, finishedAt: int, delay: int): int
    requires delay > 0
  {
    nextTime + (finishedAt - nextTime) / delay * delay + delay
  }

  lemma MulLeq(a: int, b: int, d: int)
    requires d > 0 && a <= b
    ensures a * d <= b * d
  {
    assert b * d - a * d == (b - a) * d;
  }

  lemma MultipleMod(k: int, d: int)
    requires d > 0
    ensures (k * d) % d == 0
  {
    var q, m := (k * d) / d, (k * d) % d;
    assert k * d == q * d + m;
    assert (k - q) * d == m;
    if k - q > 0 {
      MulLeq(1, k - q, d);
    } else if k - q < 0 {
      MulLeq(k - q, -1, d);
    }
  }

  /** Shifting by a whole number of periods keeps a point on the grid. */
  lemma GridShift(origin: int, x: int, k: int, d: int)
    requires d > 0 && (x - origin) % d == 0
    ensures (x + k * d - origin) % d == 0
  {
    var q := (x - origin) / d;
    assert x - origin == q * d;
    assert x + k * d - origin == (q + k) * d;
    MultipleMod(q + k, d);
  }

  /**
   * The new `next_time` is the smallest point of the grid through the old
   * one that lies strictly after the moment the job finished.
   */
  lemma {:induction false} NextTimeIsNextGridPoint(nextTime: int, finishedAt: int, delay: int)
    requires delay > 0
    ensures IsNextTick(nextTime, delay, finishedAt, NextTime(nextTime, finishedAt, delay))
    ensures forall g :: OnGrid(nextTime, delay, g) && g > finishedAt ==> g >= NextTime(nextTime, finishedAt, delay)
  {
    var q, m := (finishedAt - nextTime) / delay, (finishedAt - nextTime) % delay;
    assert finishedAt - nextTime == q * delay + m;
    var r := NextTime(nextTime, finishedAt, delay);
    assert r == nextTime + (q + 1) * delay;
    MultipleMod(q + 1, delay);
    forall g | OnGrid(nextTime, delay, g) && g > finishedAt
      ensures g >= r
    {
      var j := (g - nextTime) / delay;
      assert g - nextTime == j * delay;
      if j <= q {
        MulLeq(j, q, delay);
        assert false;
      }
      MulLeq(q + 1, j, delay);
    }
  }

  /** One rescheduling step keeps `next_time` on the grid it started on. */
  lemma NextTickStep(origin: int, delay: int, nextTime: int, finishedAt: int)
    requires delay > 0 && OnGrid(origin, delay, nextTime)
    ensures IsNextTick(origin, delay, finishedAt, NextTime(nextTime, finishedAt, delay))
  {
    NextTimeIsNextGridPoint(nextTime, finishedAt, delay);
    GridShift(origin, nextTime, (finishedAt - nextTime) / delay + 1, delay);
  }

  /**
   * `every(task, delay)` run for as many iterations as `durations` has
   * entries, on a clock that starts at `start`: task `i` takes
   * `durations[i]` seconds, sleeping advances the clock by the requested
   * amount, and `starts[i]` is the moment task `i` began. The first task
   * starts without sleeping; every later task starts on the first tick of
   * the grid `start + delay + k * delay` after the previous task finished.
   */
  method Every(start: int, delay: int, durations: seq<nat>) returns (starts: seq<int>)
    requires delay > 0
    ensures |starts| == |durations|
    ensures |starts| > 0 ==> starts[0] == start
    ensures forall i :: 0 < i < |starts| ==>
      IsNextTick(start + delay, delay, starts[i - 1] + durations[i - 1], starts[i])
  {
    var firstTime := true;
    var nextTime := start + delay;
    var clock := start;
    starts := [];
    var i := 0;
    while i < |durations|
      invariant 0 <= i <= |durations| && |starts| == i
      invariant firstTime <==> i == 0
      invariant i == 0 ==> clock == start && nextTime == start + delay
      invariant OnGrid(start + delay, delay, nextTime)
      invariant i > 0 ==> starts[0] == start
      invariant i > 0 ==> clock == starts[i - 1] + durations[i - 1]
      invariant i > 0 ==> IsNextTick(start + delay, delay, clock, nextTime)
      invariant forall j :: 0 < j < i ==>
        IsNextTick(start + delay, delay, starts[j - 1] + durations[j - 1], starts[j])
    {
      if !firstTime {
        var pause := Max(0, nextTime - clock);
        clock := clock + pause;
      } else {
        firstTime := false;
      }
      starts := starts + [clock];
      clock := clock + durations[i];
      NextTickStep(start + delay, delay, nextTime, clock);
      nextTime := NextTime(nextTime, clock, delay);
      i := i + 1;
    }
  }
}

/**
 The cases of the study: which indices are measured, the calendar window of each,
 its excursions and its first-touch exit.
 */
module StudyCases {
  import opened Common
  import opened Study

  // ---- the calendar window ----

  /** The first position from `lo` on whose time is not before `x`, as a left bisection finds it. */
  function BisectLeft(bars: seq<Bar>, x: int, lo: nat): (r: nat)
    requires lo <= |bars|
    ensures lo <= r <= |bars|
    ensures forall k :: lo <= k < r ==> bars[k].time < x
    ensures r < |bars| ==> bars[r].time >= x
    decreases |bars| - lo
  {
    if lo < |bars| && bars[lo].time < x then BisectLeft(bars, x, lo + 1) else lo
  }

  function HorizonEnd(bars: seq<Bar>, p: Parameters, i: int): int
    requires 0 <= i < |bars|
  {
    bars[i].time + p.horizon * DAY
  }

  function WindowEnd(bars: seq<Bar>, p: Parameters, i: int): nat
    requires 0 <= i < |bars|
  {
    BisectLeft(bars, HorizonEnd(bars, p, i), 0)
  }

  /** The window holds the case bar, and exactly the bars inside the calendar horizon. */
  lemma WindowIsCalendarHorizon(bars: seq<Bar>, p: Parameters, i: int)
    requires Chronological(bars) && p.Accepted() && 0 <= i < |bars|
    ensures i < WindowEnd(bars, p, i) <= |bars|
    ensures forall k :: i <= k < |bars| ==> (k < WindowEnd(bars, p, i) <==> bars[k].time < HorizonEnd(bars, p, i))
  {
    var e := WindowEnd(bars, p, i);
    assert bars[i].time < HorizonEnd(bars, p, i);
    assert forall k :: e <= k < |bars| ==> bars[e].time <= bars[k].time;
  }

  predicate DailySpaced(bars: seq<Bar>) {
    forall k :: 0 <= k < |bars| - 1 ==> bars[k].time + DAY <= bars[k + 1].time
  }

  lemma {:induction false} SpacedApart(bars: seq<Bar>, i: nat, j: nat)
    requires DailySpaced(bars) && i <= j < |bars|
    ensures bars[i].time + (j - i) * DAY <= bars[j].time
    decreases j
  {
    if i < j {
      SpacedApart(bars, i, j - 1);
      assert bars[j - 1].time + DAY <= bars[j - 1 + 1].time;
    }
  }

  /** A window ends before a later bar exactly when that bar lies past the calendar horizon. */
  lemma WindowsDisjointIff(bars: seq<Bar>, p: Parameters, i: int, j: int)
    requires Chronological(bars) && p.Accepted() && 0 <= i < j < |bars|
    ensures WindowEnd(bars, p, i) <= j <==> HorizonEnd(bars, p, i) <= bars[j].time
  {
    WindowIsCalendarHorizon(bars, p, i);
  }

  // ---- the exit ----

  /** The return of moving from `entry` to `x`. */
  function Gain(x: real, entry: real): real
    requires entry > 0.0
  {
    x / entry - 1.0
  }

  lemma GainOrder(x: real, y: real, entry: real)
    requires entry > 0.0 && x <= y
    ensures Gain(x, entry) <= Gain(y, entry)
  {
  }

  lemma GainAtEntry(entry: real)
    requires entry > 0.0
    ensures Gain(entry, entry) == 0.0
  {
  }

  datatype Exit = Exit(outcome: real, targetDay: Option<int>, invalidationDay: Option<int>)

  function DayOf(bars: seq<Bar>, i: nat, k: nat): int
    requires i < |bars| && k < |bars|
  {
    (bars[k].time - bars[i].time) / DAY + 1
  }

  /** The exit over bars `k..e` of the case at `i`; on a bar that touches both levels the invalidation wins. */
  function FirstTouch(bars: seq<Bar>, i: nat, k: nat, e: nat, entry: real, levels: Levels): Exit
    requires i <= k < e <= |bars| && entry > 0.0
    decreases e - k
  {
    if bars[k].low <= levels.invalidation then
      Exit(Smaller(Gain(bars[k].open, entry), Gain(levels.invalidation, entry)), None, Some(DayOf(bars, i, k)))
    else if bars[k].high >= levels.target then
      Exit(Gain(levels.target, entry), Some(DayOf(bars, i, k)), None)
    else if k + 1 == e then Exit(Gain(bars[k].close, entry), None, None)
    else FirstTouch(bars, i, k + 1, e, entry, levels)
  }

  function Mae(bars: seq<Bar>, k: nat, e: nat, entry: real): real
    requires k < e <= |bars| && entry > 0.0
    decreases e - k
  {
    if k + 1 == e then Gain(bars[k].low, entry)
    else Smaller(Gain(bars[k].low, entry), Mae(bars, k + 1, e, entry))
  }

  function Mfe(bars: seq<Bar>, k: nat, e: nat, entry: real): real
    requires k < e <= |bars| && entry > 0.0
    decreases e - k
  {
    if k + 1 == e then Gain(bars[k].high, entry)
    else Larger(Gain(bars[k].high, entry), Mfe(bars, k + 1, e, entry))
  }

  /** The inner loop over the window. */
  method Observe(bars: seq<Bar>, i: nat, e: nat, entry: real, levels: Levels) returns (exit: Exit)
    requires i < e <= |bars| && entry > 0.0
    ensures exit == FirstTouch(bars, i, i, e, entry, levels)
  {
    exit := Exit(Gain(bars[e - 1].close, entry), None, None);
    var k := i;
    while k < e
      invariant i <= k <= e
      invariant k < e ==> FirstTouch(bars, i, i, e, entry, levels) == FirstTouch(bars, i, k, e, entry, levels)
      invariant k == e ==> FirstTouch(bars, i, i, e, entry, levels) == exit
      invariant exit == Exit(Gain(bars[e - 1].close, entry), None, None)
    {
      var day := DayOf(bars, i, k);
      if bars[k].low <= levels.invalidation {
        exit := Exit(Smaller(Gain(bars[k].open, entry), Gain(levels.invalidation, entry)), None, Some(day));
        return;
      }
      if bars[k].high >= levels.target {
        exit := Exit(Gain(levels.target, entry), Some(day), None);
        return;
      }
      k := k + 1;
    }
  }

  // ---- the window and the exit read only bars of the window ----

  lemma {:induction false} BisectAgrees(a: seq<Bar>, b: seq<Bar>, x: int, lo: nat)
    requires |a| == |b| && lo <= |a| && forall k :: 0 <= k < |a| ==> a[k].time == b[k].time
    ensures BisectLeft(a, x, lo) == BisectLeft(b, x, lo)
    decreases |a| - lo
  {
    if lo < |a| { BisectAgrees(a, b, x, lo + 1); }
  }

  lemma {:induction false} ExitAgrees(a: seq<Bar>, b: seq<Bar>, i: nat, k: nat, e: nat, entry: real, levels: Levels)
    requires i <= k < e <= |a| && |a| == |b| && entry > 0.0 && forall n :: 0 <= n < e ==> a[n] == b[n]
    ensures FirstTouch(a, i, k, e, entry, levels) == FirstTouch(b, i, k, e, entry, levels)
    ensures Mae(a, k, e, entry) == Mae(b, k, e, entry) && Mfe(a, k, e, entry) == Mfe(b, k, e, entry)
    decreases e - k
  {
    if k + 1 < e { ExitAgrees(a, b, i, k + 1, e, entry, levels); }
  }

  // ---- recorded exits are conservative ----

  /** A sequence of intraday prices the daily bar could have summarised. */
  predicate Summarises(bar: Bar, path: seq<real>) {
    && |path| > 0 && path[0] == bar.open && path[|path| - 1] == bar.close
    && (forall n :: 0 <= n < |path| ==> bar.low <= path[n] <= bar.high)
    && (exists n :: 0 <= n < |path| && path[n] == bar.low)
    && (exists n :: 0 <= n < |path| && path[n] == bar.high)
  }

  /** The fill on one day's path from its `n`-th price on: at the level, or at the open when the day gaps through it. */
  function DayFill(path: seq<real>, n: nat, levels: Levels): (fill: Option<real>)
    requires n <= |path|
    decreases |path| - n
  {
    if n == |path| then None
    else if path[n] <= levels.invalidation then Some(if n == 0 then path[0] else levels.invalidation)
    else if path[n] >= levels.target then Some(if n == 0 then path[0] else levels.target)
    else DayFill(path, n + 1, levels)
  }

  /** The price at which the first touch along the whole path fills; the last close when nothing is touched. */
  function PathExit(paths: seq<seq<real>>, k: nat, e: nat, levels: Levels): real
    requires k < e <= |paths| && forall m :: k <= m < e ==> |paths[m]| > 0
    decreases e - k
  {
    match DayFill(paths[k], 0, levels)
    case Some(price) => price
    case None => if k + 1 == e then paths[k][|paths[k]| - 1] else PathExit(paths, k + 1, e, levels)
  }

  lemma {:induction false} UntouchedDay(path: seq<real>, n: nat, levels: Levels)
    requires n <= |path| && DayFill(path, n, levels).None?
    ensures forall m :: n <= m < |path| ==> levels.invalidation < path[m] < levels.target
    decreases |path| - n
  {
    if n < |path| { UntouchedDay(path, n + 1, levels); }
  }

  /** No fill is worse than the open or the invalidation; on a day that stays above the invalidation none is worse than the target. */
  lemma {:induction false} WorstFill(path: seq<real>, n: nat, levels: Levels)
    requires n <= |path| && levels.invalidation < levels.target && DayFill(path, n, levels).Some?
    ensures Smaller(path[0], levels.invalidation) <= DayFill(path, n, levels).value
    ensures (forall m :: 0 <= m < |path| ==> levels.invalidation < path[m]) ==> levels.target <= DayFill(path, n, levels).value
    decreases |path| - n
  {
    if levels.invalidation < path[n] < levels.target { WorstFill(path, n + 1, levels); }
  }

  lemma UntouchedBar(bar: Bar, path: seq<real>, levels: Levels)
    requires Summarises(bar, path) && DayFill(path, 0, levels).None?
    ensures levels.invalidation < bar.low && bar.high < levels.target
  {
    UntouchedDay(path, 0, levels);
  }

  lemma TouchedBar(bar: Bar, path: seq<real>, levels: Levels)
    requires Summarises(bar, path) && levels.invalidation < levels.target && DayFill(path, 0, levels).Some?
    ensures bar.low <= levels.invalidation ==> Smaller(bar.open, levels.invalidation) <= DayFill(path, 0, levels).value
    ensures levels.invalidation < bar.low ==> levels.target <= bar.high && levels.target <= DayFill(path, 0, levels).value
  {
    WorstFill(path, 0, levels);
    if levels.invalidation < bar.low && bar.high < levels.target {
      NeverFills(path, 0, levels);
    }
  }

  lemma {:induction false} NeverFills(path: seq<real>, n: nat, levels: Levels)
    requires n <= |path| && forall m :: n <= m < |path| ==> levels.invalidation < path[m] < levels.target
    ensures DayFill(path, n, levels).None?
    decreases |path| - n
  {
    if n < |path| { NeverFills(path, n + 1, levels); }
  }

  ghost predicate AllSummarise(bars: seq<Bar>, paths: seq<seq<real>>) {
    |paths| == |bars| && forall m :: 0 <= m < |bars| ==> Summarises(bars[m], paths[m])
  }

  /** The recorded outcome never exceeds what any intraday path behind the daily bars would have realised. */
  lemma {:induction false} ExitIsConservative(
    bars: seq<Bar>, paths: seq<seq<real>>, i: nat, k: nat, e: nat, entry: real, levels: Levels)
    requires i <= k < e <= |bars| && entry > 0.0 && Brackets(levels, entry)
    requires AllSummarise(bars, paths)
    ensures FirstTouch(bars, i, k, e, entry, levels).outcome <= Gain(PathExit(paths, k, e, levels), entry)
    decreases e - k
  {
    var price := PathExit(paths, k, e, levels);
    if DayFill(paths[k], 0, levels).None? {
      UntouchedBar(bars[k], paths[k], levels);
      if k + 1 < e { ExitIsConservative(bars, paths, i, k + 1, e, entry, levels); }
    } else {
      TouchedBar(bars[k], paths[k], levels);
      if bars[k].low <= levels.invalidation {
        GainOrder(Smaller(bars[k].open, levels.invalidation), price, entry);
      } else {
        GainOrder(levels.target, price, entry);
      }
    }
  }

  // ---- the exit lies between the excursions ----

  lemma {:induction false} MaeBelow(bars: seq<Bar>, k: nat, m: nat, e: nat, entry: real)
    requires k <= m < e <= |bars| && entry > 0.0
    ensures Mae(bars, k, e, entry) <= Gain(bars[m].low, entry)
    decreases e - k
  {
    if k < m { MaeBelow(bars, k + 1, m, e, entry); }
  }

  lemma {:induction false} MfeAbove(bars: seq<Bar>, k: nat, m: nat, e: nat, entry: real)
    requires k <= m < e <= |bars| && entry > 0.0
    ensures Gain(bars[m].high, entry) <= Mfe(bars, k, e, entry)
    decreases e - k
  {
    if k < m { MfeAbove(bars, k + 1, m, e, entry); }
  }

  /** Where the scan stops, or the last bar. */
  function StopBar(bars: seq<Bar>, k: nat, e: nat, levels: Levels): (m: nat)
    requires k < e <= |bars|
    ensures k <= m < e
    decreases e - k
  {
    if bars[k].low <= levels.invalidation || bars[k].high >= levels.target || k + 1 == e then k
    else StopBar(bars, k + 1, e, levels)
  }

  lemma {:induction false} TouchAtStop(bars: seq<Bar>, i: nat, k: nat, e: nat, entry: real, levels: Levels)
    requires i <= k < e <= |bars| && entry > 0.0
    ensures var m := StopBar(bars, k, e, levels);
            FirstTouch(bars, i, k, e, entry, levels) == FirstTouch(bars, i, m, m + 1, entry, levels)
    decreases e - k
  {
    if StopBar(bars, k, e, levels) != k { TouchAtStop(bars, i, k + 1, e, entry, levels); }
  }

  /** At most one level is recorded, its day is inside the horizon, and the excursions enclose the outcome and zero. */
  lemma {:induction false} ExitWithinExcursions(bars: seq<Bar>, p: Parameters, i: nat, levels: Levels)
    requires WellFormed(bars) && Chronological(bars) && p.Accepted() && i < |bars|
    requires Brackets(levels, bars[i].open)
    ensures i < WindowEnd(bars, p, i) <= |bars|
    ensures var e, entry := WindowEnd(bars, p, i), bars[i].open;
            var exit := FirstTouch(bars, i, i, e, entry, levels);
            && (exit.targetDay.None? || exit.invalidationDay.None?)
            && (exit.targetDay.Some? ==> 1 <= exit.targetDay.value <= p.horizon)
            && (exit.invalidationDay.Some? ==> 1 <= exit.invalidationDay.value <= p.horizon)
            && Mae(bars, i, e, entry) <= exit.outcome <= Mfe(bars, i, e, entry)
            && Mae(bars, i, e, entry) <= 0.0 <= Mfe(bars, i, e, entry)
  {
    WindowIsCalendarHorizon(bars, p, i);
    var e, entry := WindowEnd(bars, p, i), bars[i].open;
    TouchAtStop(bars, i, i, e, entry, levels);
    var m := StopBar(bars, i, e, levels);
    DayInHorizon(bars, p, i, m);
    MaeBelow(bars, i, i, e, entry);
    MfeAbove(bars, i, i, e, entry);
    MaeBelow(bars, i, m, e, entry);
    MfeAbove(bars, i, m, e, entry);
    OutcomeAtBar(bars, i, m, entry, levels);
    GainAtEntry(entry);
    GainOrder(bars[i].low, entry, entry);
    GainOrder(entry, bars[i].high, entry);
  }

  lemma DayInHorizon(bars: seq<Bar>, p: Parameters, i: nat, k: nat)
    requires Chronological(bars) && p.Accepted() && i <= k < |bars| && k < WindowEnd(bars, p, i)
    ensures 1 <= DayOf(bars, i, k) <= p.horizon
  {
    WindowIsCalendarHorizon(bars, p, i);
    assert i < k ==> bars[i].time < bars[k].time;
    DaysWithin(bars[k].time - bars[i].time, p.horizon);
  }

  lemma DaysWithin(elapsed: int, horizon: int)
    requires 0 <= elapsed < horizon * DAY
    ensures 0 <= elapsed / DAY < horizon
  {
  }

  lemma OutcomeAtBar(bars: seq<Bar>, i: nat, m: nat, entry: real, levels: Levels)
    requires WellFormed(bars) && i <= m < |bars| && entry > 0.0 && Brackets(levels, entry)
    ensures var outcome := FirstTouch(bars, i, m, m + 1, entry, levels).outcome;
            && Smaller(Gain(bars[m].low, entry), 0.0) <= outcome <= Gain(bars[m].high, entry)
  {
    var bar := bars[m];
    GainAtEntry(entry);
    GainOrder(bar.low, bar.open, entry);
    GainOrder(bar.open, bar.high, entry);
    GainOrder(bar.low, bar.close, entry);
    GainOrder(bar.close, bar.high, entry);
    if bar.low <= levels.invalidation {
      GainOrder(bar.low, levels.invalidation, entry);
    } else if levels.target <= bar.high {
      GainOrder(entry, levels.target, entry);
      GainOrder(levels.target, bar.high, entry);
    }
  }
}

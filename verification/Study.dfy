/**
 The fixed momentum study: Wilder's average true range, the out-of-sample case
 selection, the calendar-day outcome window and the first-touch exit.

 Prices are reals and instants are integers counting microseconds.
 */
module Study {
  import opened Common

  datatype Bar = Bar(time: int, open: real, high: real, low: real, close: real, availableAt: int)

  /** What the price-bar contract guarantees of each bar. */
  predicate WellFormed(bars: seq<Bar>) {
    forall i :: 0 <= i < |bars| ==> 0.0 < bars[i].low <= bars[i].open <= bars[i].high && bars[i].low <= bars[i].close <= bars[i].high
  }

  predicate Chronological(bars: seq<Bar>) {
    forall i, j :: 0 <= i < j < |bars| ==> bars[i].time < bars[j].time
  }

  datatype Scenario = Scenario(entryHalfWidth: real, targetAtr: real, invalidationAtr: real)

  datatype Parameters = Parameters(
    horizon: int, target: real, invalidation: real, threshold: real, costBps: real, scenario: Option<Scenario>)
  {
    function Cost(): real { costBps / 10000.0 }

    predicate Accepted() {
      && 1 <= horizon <= 30 && 0.0 < target <= 1.0 && 0.0 < invalidation < 1.0
      && 0.0 <= Cost() < 1.0
    }
  }

  // ---- Wilder's average true range ----

  function Abs(x: real): real { if x < 0.0 then -x else x }

  function TrueRange(bar: Bar, previousClose: real): real {
    Larger(bar.high - bar.low, Larger(Abs(bar.high - previousClose), Abs(bar.low - previousClose)))
  }

  /** The sum of the true ranges of bars `1..n`. */
  function RangeSum(bars: seq<Bar>, n: nat): real
    requires n < |bars|
  {
    if n == 0 then 0.0 else RangeSum(bars, n - 1) + TrueRange(bars[n], bars[n - 1].close)
  }

  function AtrAt(bars: seq<Bar>, i: nat): (atr: Option<real>)
    requires i < |bars|
    ensures atr.Some? <==> i >= 14
  {
    if i < 14 then None
    else if i == 14 then Some(RangeSum(bars, 14) / 14.0)
    else Some((AtrAt(bars, i - 1).value * 13.0 + TrueRange(bars[i], bars[i - 1].close)) / 14.0)
  }

  method Atr14(bars: seq<Bar>) returns (atr: array<Option<real>>)
    ensures fresh(atr) && atr.Length == |bars|
    ensures forall i :: 0 <= i < |bars| ==> atr[i] == AtrAt(bars, i)
  {
    atr := new Option<real>[|bars|](_ => None);
    if |bars| > 14 {
      var seed := 0.0;
      for k := 1 to 15
        invariant seed == RangeSum(bars, k - 1)
      {
        seed := seed + TrueRange(bars[k], bars[k - 1].close);
      }
      atr[14] := Some(seed / 14.0);
      for i := 15 to |bars|
        invariant forall k :: 0 <= k < i ==> atr[k] == AtrAt(bars, k)
      {
        var previous := atr[i - 1].value;
        atr[i] := Some((previous * 13.0 + TrueRange(bars[i], bars[i - 1].close)) / 14.0);
      }
    }
  }

  // ---- rounding to six decimal places ----

  const GRID: real := 1000000.0

  function Floor6(x: real): real { (x * GRID).Floor as real / GRID }

  function Ceiling6(x: real): real { -((-x * GRID).Floor as real) / GRID }

  /** Half-even rounding, the decimal context's default. */
  function Nearest6(x: real): real {
    var n := (x * GRID).Floor;
    var rest := x * GRID - n as real;
    if rest < 0.5 || (rest == 0.5 && n % 2 == 0) then n as real / GRID else (n + 1) as real / GRID
  }

  // ---- the decision at one index ----

  datatype Decision = Skip | Admit(entry: real, target: real, invalidation: real, positiveTrend: bool)

  /** Indices at which the loop may stand. */
  predicate Eligible(bars: seq<Bar>, p: Parameters, i: int) {
    p.Accepted() && 61 <= i < |bars| - p.horizon
  }

  /** Every bar the decision reads was published by the decision time. */
  predicate Published(bars: seq<Bar>, p: Parameters, i: int)
    requires Eligible(bars, p, i)
  {
    forall k :: (if p.scenario.Some? then 0 else i - 60) <= k < i ==> bars[k].availableAt <= bars[i].time
  }

  /** What the decision at one index reads. */
  datatype Known = Known(
    published: bool, open: real, lastClose: real, close20: real, close60: real, atr: Option<real>, horizonCovered: bool)

  function Read(bars: seq<Bar>, p: Parameters, i: int): Known
    requires Eligible(bars, p, i)
  {
    Known(Published(bars, p, i), bars[i].open, bars[i - 1].close, bars[i - 20].close, bars[i - 60].close,
          AtrAt(bars, i - 1), bars[i].time + p.horizon * DAY <= bars[|bars| - 1].time)
  }

  datatype Levels = Levels(target: real, invalidation: real)

  predicate Brackets(levels: Levels, entry: real) {
    0.0 < levels.invalidation < entry < levels.target
  }

  function FractionLevels(p: Parameters, entry: real): (levels: Levels)
    requires p.Accepted() && entry > 0.0
    ensures Brackets(levels, entry)
  {
    FractionsBracket(entry, p.target, p.invalidation);
    Levels(entry * (1.0 + p.target), entry * (1.0 - p.invalidation))
  }

  lemma FractionsBracket(entry: real, target: real, invalidation: real)
    requires entry > 0.0 && 0.0 < target && 0.0 < invalidation < 1.0
    ensures 0.0 < entry * (1.0 - invalidation) < entry < entry * (1.0 + target)
  {
    assert entry * (1.0 - invalidation) > 0.0;
    assert entry * invalidation > 0.0;
    assert entry * (1.0 - invalidation) == entry - entry * invalidation;
    assert entry * target > 0.0;
    assert entry * (1.0 + target) == entry + entry * target;
  }

  /** The scenario bands around the last close, in units of the rounded average range. */
  function ScenarioLevels(scenario: Scenario, reference: real, atr: real, entry: real): (levels: Option<Levels>)
    ensures levels.Some? ==> Brackets(levels.value, entry)
  {
    var unit := Nearest6(atr);
    var half := scenario.entryHalfWidth * unit;
    var target := Floor6(reference + scenario.targetAtr * unit);
    var invalidation := Floor6(reference - scenario.invalidationAtr * unit);
    if Floor6(reference - half) <= entry <= Ceiling6(reference + half) && 0.0 < invalidation < entry < target
    then Some(Levels(target, invalidation)) else None
  }

  function ChooseLevels(p: Parameters, k: Known): (levels: Option<Levels>)
    requires p.Accepted() && k.open > 0.0
    ensures levels.Some? ==> Brackets(levels.value, k.open)
  {
    match p.scenario
    case None => Some(FractionLevels(p, k.open))
    case Some(scenario) =>
      if k.atr.None? || k.atr.value <= 0.0 then None
      else ScenarioLevels(scenario, k.lastClose, k.atr.value, k.open)
  }

  function Choose(p: Parameters, k: Known): (d: Decision)
    requires p.Accepted() && k.open > 0.0 && k.close20 > 0.0
    ensures d.Admit? ==> k.published && k.horizonCovered && d.entry == k.open
    ensures d.Admit? ==> Brackets(Levels(d.target, d.invalidation), d.entry)
  {
    if !k.published || k.lastClose / k.close20 - 1.0 <= p.threshold then Skip
    else
      var levels := ChooseLevels(p, k);
      if levels.None? || !k.horizonCovered then Skip
      else Admit(k.open, levels.value.target, levels.value.invalidation, k.lastClose > k.close60)
  }

  /** The loop body's admission test at index `i`. */
  function Decide(bars: seq<Bar>, p: Parameters, i: int): Decision
    requires WellFormed(bars) && Eligible(bars, p, i)
  {
    Choose(p, Read(bars, p, i))
  }

  // ---- no look-ahead ----

  /** The histories agree on everything before `i` and on the open at `i`; timestamps and publication times agree throughout. */
  predicate SameKnowledge(a: seq<Bar>, b: seq<Bar>, i: int) {
    && |a| == |b| && 0 <= i < |a|
    && (forall k :: 0 <= k < |a| ==> a[k].time == b[k].time && a[k].availableAt == b[k].availableAt)
    && (forall k :: 0 <= k < i ==> a[k] == b[k])
    && a[i].open == b[i].open
  }

  lemma {:induction false} RangeSumAgrees(a: seq<Bar>, b: seq<Bar>, i: int, n: nat)
    requires SameKnowledge(a, b, i) && n < i
    ensures RangeSum(a, n) == RangeSum(b, n)
  {
    if n > 0 { RangeSumAgrees(a, b, i, n - 1); }
  }

  lemma {:induction false} AtrAgrees(a: seq<Bar>, b: seq<Bar>, i: int, k: nat)
    requires SameKnowledge(a, b, i) && k < i
    ensures AtrAt(a, k) == AtrAt(b, k)
  {
    if k == 14 {
      RangeSumAgrees(a, b, i, 14);
    } else if k > 14 {
      AtrAgrees(a, b, i, k - 1);
    }
  }

  /** The histories agree on everything before `i`; timestamps and publication times agree throughout. */
  predicate SamePast(a: seq<Bar>, b: seq<Bar>, i: int) {
    && |a| == |b| && 0 <= i <= |a|
    && (forall k :: 0 <= k < |a| ==> a[k].time == b[k].time && a[k].availableAt == b[k].availableAt)
    && (forall k :: 0 <= k < i ==> a[k] == b[k])
  }

  /** Nothing at or after the decision bar, except its open, can change the decision. */
  lemma {:induction false} NoLookAhead(a: seq<Bar>, b: seq<Bar>, p: Parameters, i: int)
    requires WellFormed(a) && WellFormed(b) && Eligible(a, p, i)
    requires SameKnowledge(a, b, i)
    ensures Decide(a, p, i) == Decide(b, p, i)
  {
    AtrAgrees(a, b, i, i - 1);
    assert Read(a, p, i) == Read(b, p, i);
  }
}

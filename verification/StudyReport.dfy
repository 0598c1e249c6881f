/**
 The study's report: the measured cases, their summary, the walk-forward folds
 and the six sensitivity runs.
 */
module StudyReport {
  import opened Common
  import opened Study
  import opened StudyCases
  import Drawdown

  datatype Case = Case(
    time: int, result: real, mae: real, mfe: real, targetDay: Option<int>, invalidationDay: Option<int>, positiveTrend: bool)

  datatype Fold = Fold(observations: nat, mean: Option<real>)

  datatype Sensitivity = Sensitivity(observations: nat, mean: Option<real>, maximumDrawdown: real)

  datatype Report = Report(
    observations: nat, barsReceived: nat, mean: Option<real>, maximumDrawdown: real, mae: Option<real>, mfe: Option<real>,
    targetOccurrences: nat, invalidationOccurrences: nat, folds: seq<Fold>, regimes: seq<bool>,
    stressMean: Option<real>, cases: seq<Case>, sensitivity: seq<Sensitivity>)

  datatype Failure = InvalidParameters | InvalidCost | NotChronological

  // ---- the measured cases ----

  predicate Studied(bars: seq<Bar>, p: Parameters) {
    WellFormed(bars) && Chronological(bars) && p.Accepted()
  }

  /** The record of an admitted case at `i`. */
  function CaseAt(bars: seq<Bar>, p: Parameters, i: int, d: Decision): Case
    requires Studied(bars, p) && 0 <= i < |bars| && d.Admit? && d.entry > 0.0
  {
    WindowIsCalendarHorizon(bars, p, i);
    var e := WindowEnd(bars, p, i);
    var exit := FirstTouch(bars, i, i, e, d.entry, Levels(d.target, d.invalidation));
    Case(bars[i].time, exit.outcome - p.Cost(), Mae(bars, i, e, d.entry), Mfe(bars, i, e, d.entry),
         exit.targetDay, exit.invalidationDay, d.positiveTrend)
  }

  /** What the loop body contributes at `i`: a record, or nothing when the index is skipped. */
  function RecordAt(bars: seq<Bar>, p: Parameters, i: int): Option<Case>
    requires Studied(bars, p) && Eligible(bars, p, i)
  {
    var d := Decide(bars, p, i);
    if d.Skip? then None else Some(CaseAt(bars, p, i, d))
  }

  /** Out-of-sample indices start at 60% of the history, and never before a full lookback. */
  function ReservedStart(bars: seq<Bar>): (start: int)
    ensures 61 <= start
  {
    var sixty := |bars| * 6 / 10;
    if 61 >= sixty then 61 else sixty
  }

  /** What every index would contribute if the loop stood there. */
  function Records(bars: seq<Bar>, p: Parameters): (rs: seq<Option<Case>>)
    requires Studied(bars, p)
    ensures |rs| == |bars|
  {
    seq(|bars|, i requires 0 <= i < |bars| => if Eligible(bars, p, i) then RecordAt(bars, p, i) else None)
  }

  function Listed<T>(x: Option<T>): seq<T> {
    if x.Some? then [x.value] else []
  }

  /** The entries kept by a loop over `from, from + step, ...` below `limit`. */
  function Stepped<T>(rs: seq<Option<T>>, from: nat, limit: int, step: nat): seq<T>
    requires limit <= |rs| && 0 < step
    decreases limit - from
  {
    if from >= limit then [] else Listed(rs[from]) + Stepped(rs, from + step, limit, step)
  }

  function Cases(bars: seq<Bar>, p: Parameters): seq<Case>
    requires Studied(bars, p)
  {
    Stepped(Records(bars, p), ReservedStart(bars), |bars| - p.horizon, p.horizon)
  }

  /** The loop body. */
  method MeasureAt(bars: seq<Bar>, p: Parameters, index: int, previousAtr: Option<real>) returns (record: Option<Case>)
    requires Studied(bars, p) && Eligible(bars, p, index) && previousAtr == AtrAt(bars, index - 1)
    ensures record == Records(bars, p)[index]
  {
    var known := Known(Published(bars, p, index), bars[index].open, bars[index - 1].close, bars[index - 20].close,
                       bars[index - 60].close, previousAtr, HorizonEnd(bars, p, index) <= bars[|bars| - 1].time);
    assert known == Read(bars, p, index);
    var decision := Choose(p, known);
    if decision.Skip? { return None; }
    WindowIsCalendarHorizon(bars, p, index);
    var end := WindowEnd(bars, p, index);
    var exit := Observe(bars, index, end, decision.entry, Levels(decision.target, decision.invalidation));
    record := Some(Case(bars[index].time, exit.outcome - p.Cost(), Mae(bars, index, end, decision.entry),
                        Mfe(bars, index, end, decision.entry), exit.targetDay, exit.invalidationDay, decision.positiveTrend));
  }

  /** The stepping loop that appends one record per admitted index. */
  method MeasureCases(bars: seq<Bar>, p: Parameters) returns (cases: seq<Case>)
    requires Studied(bars, p)
    ensures cases == Cases(bars, p)
  {
    hide Records;
    var values := Atr14(bars);
    var atr := values[..];
    cases := [];
    var index, limit := ReservedStart(bars), |bars| - p.horizon;
    ghost var all, rs := Cases(bars, p), Records(bars, p);
    while index < limit
      invariant 61 <= index
      invariant all == cases + Stepped(rs, index, limit, p.horizon)
    {
      var record := MeasureAt(bars, p, index, atr[index - 1]);
      SteppedMore(rs, cases, index, limit, p.horizon, all);
      cases := cases + Listed(record);
      index := index + p.horizon;
    }
  }

  lemma SteppedMore<T>(rs: seq<Option<T>>, done: seq<T>, from: nat, limit: int, step: nat, all: seq<T>)
    requires from < limit <= |rs| && 0 < step && all == done + Stepped(rs, from, limit, step)
    ensures all == (done + Listed(rs[from])) + Stepped(rs, from + step, limit, step)
  {
  }

  /** The positions `Stepped` keeps, in order. */
  function Kept<T>(rs: seq<Option<T>>, from: nat, limit: int, step: nat): (ix: seq<nat>)
    requires limit <= |rs| && 0 < step
    ensures forall k :: 0 <= k < |ix| ==> from <= ix[k] < limit
    ensures forall k, m :: 0 <= k < m < |ix| ==> ix[k] + step <= ix[m]
    decreases limit - from
  {
    if from >= limit then []
    else
      var rest := Kept(rs, from + step, limit, step);
      if rs[from].Some? then [from] + rest else rest
  }

  lemma {:induction false} KeptAreStepped<T>(rs: seq<Option<T>>, from: nat, limit: int, step: nat)
    requires limit <= |rs| && 0 < step
    ensures |Stepped(rs, from, limit, step)| == |Kept(rs, from, limit, step)|
    ensures forall k :: 0 <= k < |Stepped(rs, from, limit, step)| ==>
      rs[Kept(rs, from, limit, step)[k]] == Some(Stepped(rs, from, limit, step)[k])
    decreases limit - from
  {
    if from < limit {
      KeptAreStepped(rs, from + step, limit, step);
      if rs[from].Some? {
        assert Stepped(rs, from, limit, step) == [rs[from].value] + Stepped(rs, from + step, limit, step);
      } else {
        assert Stepped(rs, from, limit, step) == Stepped(rs, from + step, limit, step);
      }
    }
  }

  /** The indices of the measured cases. */
  function CaseIndices(bars: seq<Bar>, p: Parameters): seq<nat>
    requires Studied(bars, p)
  {
    Kept(Records(bars, p), ReservedStart(bars), |bars| - p.horizon, p.horizon)
  }

  /**
   The `k`-th case is the record of the `k`-th case index. The windows of two cases are disjoint exactly when the
   later one starts past the calendar horizon of the earlier.
   */
  lemma CaseWindowsDisjointIff(bars: seq<Bar>, p: Parameters, k: nat, m: nat)
    requires Studied(bars, p) && k < m < |Cases(bars, p)|
    ensures |CaseIndices(bars, p)| == |Cases(bars, p)|
    ensures var ix := CaseIndices(bars, p);
            && Records(bars, p)[ix[k]] == Some(Cases(bars, p)[k])
            && ix[k] < WindowEnd(bars, p, ix[k]) && ix[k] + p.horizon <= ix[m] < WindowEnd(bars, p, ix[m])
            && (WindowEnd(bars, p, ix[k]) <= ix[m] <==> HorizonEnd(bars, p, ix[k]) <= bars[ix[m]].time)
  {
    hide Records;
    var rs, start, limit := Records(bars, p), ReservedStart(bars), |bars| - p.horizon;
    KeptAreStepped(rs, start, limit, p.horizon);
    var ix := Kept(rs, start, limit, p.horizon);
    WindowIsCalendarHorizon(bars, p, ix[k]);
    WindowIsCalendarHorizon(bars, p, ix[m]);
    WindowsDisjointIff(bars, p, ix[k], ix[m]);
  }

  /** So distinct cases have disjoint windows when bars are at least a day apart. */
  lemma CaseWindowsDisjoint(bars: seq<Bar>, p: Parameters, k: nat, m: nat)
    requires Studied(bars, p) && DailySpaced(bars) && k < m < |Cases(bars, p)|
    ensures |CaseIndices(bars, p)| == |Cases(bars, p)|
    ensures var ix := CaseIndices(bars, p);
            && Records(bars, p)[ix[k]] == Some(Cases(bars, p)[k])
            && ix[k] < WindowEnd(bars, p, ix[k]) <= ix[m] < WindowEnd(bars, p, ix[m])
  {
    hide Records;
    CaseWindowsDisjointIff(bars, p, k, m);
    var ix := CaseIndices(bars, p);
    SpacedApart(bars, ix[k], ix[m]);
  }

  // ---- no look-ahead over the whole study ----

  lemma {:induction false} KeptAgree<T>(ra: seq<Option<T>>, rb: seq<Option<T>>, from: nat, limit: int, step: nat, k: nat)
    requires limit <= |ra| == |rb| && 0 < step && k < |Kept(ra, from, limit, step)|
    requires forall j :: from <= j <= Kept(ra, from, limit, step)[k] ==> (ra[j].Some? <==> rb[j].Some?)
    ensures k < |Kept(rb, from, limit, step)| && Kept(rb, from, limit, step)[k] == Kept(ra, from, limit, step)[k]
    decreases limit - from
  {
    if ra[from].None? {
      KeptAgree(ra, rb, from + step, limit, step, k);
    } else if k > 0 {
      KeptAgree(ra, rb, from + step, limit, step, k - 1);
    }
  }

  lemma AdmissionAgrees(a: seq<Bar>, b: seq<Bar>, p: Parameters, i: int, j: nat)
    requires Studied(a, p) && Studied(b, p) && SamePast(a, b, i) && j < i
    ensures Records(a, p)[j].Some? <==> Records(b, p)[j].Some?
  {
    if Eligible(a, p, j) { NoLookAhead(a, b, p, j); }
  }

  lemma RecordAgrees(a: seq<Bar>, b: seq<Bar>, p: Parameters, i: int, j: nat)
    requires Studied(a, p) && Studied(b, p) && SamePast(a, b, i) && j < |a| && WindowEnd(a, p, j) <= i
    ensures Records(a, p)[j] == Records(b, p)[j] && WindowEnd(b, p, j) == WindowEnd(a, p, j)
  {
    hide FirstTouch, Mae, Mfe;
    WindowIsCalendarHorizon(a, p, j);
    BisectAgrees(a, b, HorizonEnd(a, p, j), 0);
    if Eligible(a, p, j) {
      NoLookAhead(a, b, p, j);
      var d := Decide(a, p, j);
      if d.Admit? { ExitAgrees(a, b, j, j, WindowEnd(a, p, j), d.entry, Levels(d.target, d.invalidation)); }
    }
  }

  /**
   Histories that agree before bar `i` have the same cases, number by number, among those whose windows end by `i`:
   nothing later changes which cases were taken or what they recorded.
   */
  lemma CasesKnowNoFuture(a: seq<Bar>, b: seq<Bar>, p: Parameters, i: int, k: nat)
    requires Studied(a, p) && Studied(b, p) && SamePast(a, b, i)
    requires k < |CaseIndices(a, p)| && WindowEnd(a, p, CaseIndices(a, p)[k]) <= i
    ensures k < |CaseIndices(b, p)| && CaseIndices(b, p)[k] == CaseIndices(a, p)[k]
    ensures k < |Cases(a, p)| && k < |Cases(b, p)| && Cases(a, p)[k] == Cases(b, p)[k]
  {
    hide Records;
    var ra, rb, start, limit := Records(a, p), Records(b, p), ReservedStart(a), |a| - p.horizon;
    KeptAreStepped(ra, start, limit, p.horizon);
    KeptAreStepped(rb, start, limit, p.horizon);
    var at := CaseIndices(a, p)[k];
    WindowIsCalendarHorizon(a, p, at);
    forall j | start <= j <= at ensures ra[j].Some? <==> rb[j].Some? { AdmissionAgrees(a, b, p, i, j); }
    KeptAgree(ra, rb, start, limit, p.horizon, k);
    RecordAgrees(a, b, p, i, at);
  }

  // ---- the summary ----

  function Returns(cases: seq<Case>): (rs: seq<real>)
    ensures |rs| == |cases|
  {
    seq(|cases|, k requires 0 <= k < |cases| => cases[k].result)
  }

  function Sum(xs: seq<real>): real {
    if xs == [] then 0.0 else Sum(xs[..|xs| - 1]) + xs[|xs| - 1]
  }

  function Mean(xs: seq<real>): (m: Option<real>)
    ensures m.None? <==> xs == []
  {
    if xs == [] then None else Some(Sum(xs) / |xs| as real)
  }

  /** The `fold`-th third of the returns, in order. */
  function Section(xs: seq<real>, fold: nat): seq<real>
    requires fold < 3
  {
    xs[|xs| * fold / 3..|xs| * (fold + 1) / 3]
  }

  function FoldAt(xs: seq<real>, fold: nat): Fold
    requires fold < 3
  {
    Fold(|Section(xs, fold)|, Mean(Section(xs, fold)))
  }

  function WorstMae(cases: seq<Case>): Option<real> {
    if cases == [] then None
    else
      var last, rest := cases[|cases| - 1].mae, WorstMae(cases[..|cases| - 1]);
      Some(if rest.None? then last else Smaller(rest.value, last))
  }

  function BestMfe(cases: seq<Case>): Option<real> {
    if cases == [] then None
    else
      var last, rest := cases[|cases| - 1].mfe, BestMfe(cases[..|cases| - 1]);
      Some(if rest.None? then last else Larger(rest.value, last))
  }

  function Count(flags: seq<bool>): nat {
    if flags == [] then 0 else Count(flags[..|flags| - 1]) + if flags[|flags| - 1] then 1 else 0
  }

  function Targets(cases: seq<Case>): nat { Count(seq(|cases|, k requires 0 <= k < |cases| => cases[k].targetDay.Some?)) }

  function Invalidations(cases: seq<Case>): nat { Count(seq(|cases|, k requires 0 <= k < |cases| => cases[k].invalidationDay.Some?)) }

  predicate Shows(cases: seq<Case>, trend: bool) { exists k :: 0 <= k < |cases| && cases[k].positiveTrend == trend }

  /** The regimes that occur, each once, in the order of their names. */
  function Regimes(cases: seq<Case>): (rs: seq<bool>)
    ensures forall t :: t in rs <==> Shows(cases, t)
    ensures |rs| >= 2 <==> Shows(cases, false) && Shows(cases, true)
  {
    (if Shows(cases, false) then [false] else []) + if Shows(cases, true) then [true] else []
  }

  function StressMean(rs: seq<real>, cost: real): Option<real> {
    if rs == [] then None else Some(Mean(rs).value - cost)
  }

  function Folds(rs: seq<real>): (folds: seq<Fold>)
    ensures |folds| == 3
  {
    [FoldAt(rs, 0), FoldAt(rs, 1), FoldAt(rs, 2)]
  }

  /** The report around a drawdown and folds computed elsewhere. */
  function Assemble(cases: seq<Case>, rs: seq<real>, bars: nat, cost: real, drawdown: real, folds: seq<Fold>): Report {
    Report(|cases|, bars, Mean(rs), drawdown, WorstMae(cases), BestMfe(cases), Targets(cases), Invalidations(cases),
           folds, Regimes(cases), StressMean(rs, cost), cases, [])
  }

  function Summarise(cases: seq<Case>, bars: nat, cost: real): Report {
    var rs := Returns(cases);
    Assemble(cases, rs, bars, cost, Drawdown.MaximumDrawdown(rs), Folds(rs))
  }

  /** Why an evaluation is refused, if it is. */
  function Refusal(bars: seq<Bar>, p: Parameters): (f: Option<Failure>)
    ensures WellFormed(bars) ==> (f.None? <==> Studied(bars, p))
  {
    if !(1 <= p.horizon <= 30 && 0.0 < p.target <= 1.0 && 0.0 < p.invalidation < 1.0) then Some(InvalidParameters)
    else if !(0.0 <= p.Cost() < 1.0) then Some(InvalidCost)
    else if !Chronological(bars) then Some(NotChronological)
    else None
  }

  function ReportOf(bars: seq<Bar>, p: Parameters): Report
    requires Studied(bars, p)
  {
    Summarise(Cases(bars, p), |bars|, p.Cost())
  }

  function Evaluate(bars: seq<Bar>, p: Parameters): Result<Report, Failure>
    requires WellFormed(bars)
  {
    var refusal := Refusal(bars, p);
    if refusal.Some? then Err(refusal.value) else Ok(ReportOf(bars, p))
  }

  /** The six neighbouring parameter sets. */
  function Variations(p: Parameters): (vs: seq<Parameters>)
    ensures |vs| == 6
    ensures p.Accepted() ==> forall k :: 0 <= k < |vs| ==> vs[k].Accepted()
  {
    var shorter, longer := if p.horizon - 1 >= 1 then p.horizon - 1 else 1, if p.horizon + 1 <= 30 then p.horizon + 1 else 30;
    match p.scenario
    case None =>
      [p.(target := p.target * 0.8), p.(target := Smaller(1.0, p.target * 1.2)),
       p.(invalidation := p.invalidation * 0.8), p.(invalidation := Smaller(0.99, p.invalidation * 1.2)),
       p.(horizon := shorter), p.(horizon := longer)]
    case Some(s) =>
      [p.(scenario := Some(s.(targetAtr := s.targetAtr * 0.8))), p.(scenario := Some(s.(targetAtr := s.targetAtr * 1.2))),
       p.(scenario := Some(s.(invalidationAtr := s.invalidationAtr * 0.8))),
       p.(scenario := Some(s.(invalidationAtr := s.invalidationAtr * 1.2))),
       p.(horizon := shorter), p.(horizon := longer)]
  }

  function SensitivityOf(bars: seq<Bar>, p: Parameters): Sensitivity
    requires Studied(bars, p)
  {
    var r := ReportOf(bars, p);
    Sensitivity(r.observations, r.mean, r.maximumDrawdown)
  }

  function SensitivitiesOf(bars: seq<Bar>, vs: seq<Parameters>): (ss: seq<Sensitivity>)
    requires forall k :: 0 <= k < |vs| ==> Studied(bars, vs[k])
    ensures |ss| == |vs|
  {
    if vs == [] then [] else SensitivitiesOf(bars, vs[..|vs| - 1]) + [SensitivityOf(bars, vs[|vs| - 1])]
  }

  function EvaluateStudy(bars: seq<Bar>, p: Parameters): Result<Report, Failure>
    requires WellFormed(bars)
  {
    var refusal := Refusal(bars, p);
    if refusal.Some? then Err(refusal.value)
    else Ok(ReportOf(bars, p).(sensitivity := SensitivitiesOf(bars, Variations(p))))
  }

  // ---- imperative form of the two evaluations ----

  method WalkForward(rs: seq<real>) returns (folds: seq<Fold>)
    ensures folds == Folds(rs)
  {
    folds := [];
    for fold := 0 to 3
      invariant folds == Folds(rs)[..fold]
    {
      folds := folds + [FoldAt(rs, fold)];
    }
  }

  method SummariseCases(cases: seq<Case>, bars: nat, cost: real) returns (report: Report)
    ensures report == Summarise(cases, bars, cost)
  {
    var rs := Returns(cases);
    var maximumDrawdown := Drawdown.Measure(rs);
    var folds := WalkForward(rs);
    report := Assemble(cases, rs, bars, cost, maximumDrawdown, folds);
  }

  method RunEvaluation(bars: seq<Bar>, p: Parameters) returns (r: Result<Report, Failure>)
    requires WellFormed(bars)
    ensures r == Evaluate(bars, p)
  {
    if !(1 <= p.horizon <= 30 && 0.0 < p.target <= 1.0 && 0.0 < p.invalidation < 1.0) { return Err(InvalidParameters); }
    if !(0.0 <= p.Cost() < 1.0) { return Err(InvalidCost); }
    if !Chronological(bars) { return Err(NotChronological); }
    var cases := MeasureCases(bars, p);
    var report := SummariseCases(cases, |bars|, p.Cost());
    r := Ok(report);
  }

  method RunSensitivity(bars: seq<Bar>, p: Parameters) returns (s: Sensitivity)
    requires Studied(bars, p)
    ensures s == SensitivityOf(bars, p)
  {
    var r := RunEvaluation(bars, p);
    s := Sensitivity(r.value.observations, r.value.mean, r.value.maximumDrawdown);
  }

  method RunVariations(bars: seq<Bar>, vs: seq<Parameters>) returns (ss: seq<Sensitivity>)
    requires forall k :: 0 <= k < |vs| ==> Studied(bars, vs[k])
    ensures ss == SensitivitiesOf(bars, vs)
  {
    hide SensitivityOf;
    ss := [];
    for k := 0 to |vs|
      invariant ss == SensitivitiesOf(bars, vs[..k])
    {
      var s := RunSensitivity(bars, vs[k]);
      ss := ss + [s];
      assert vs[..k + 1][..k] == vs[..k];
    }
    assert vs[..|vs|] == vs;
  }

  /** The six sensitivity runs are never refused once the base run is accepted. */
  method RunStudy(bars: seq<Bar>, p: Parameters) returns (r: Result<Report, Failure>)
    requires WellFormed(bars)
    ensures r == EvaluateStudy(bars, p)
  {
    r := RunEvaluation(bars, p);
    if r.Ok? {
      var sensitivity := RunVariations(bars, Variations(p));
      r := Ok(r.value.(sensitivity := sensitivity));
    }
  }

  // ---- cost only shifts the returns ----

  lemma DecisionIgnoresCost(bars: seq<Bar>, p: Parameters, q: Parameters, i: int)
    requires Studied(bars, p) && Studied(bars, q) && q == p.(costBps := q.costBps) && Eligible(bars, p, i)
    ensures Decide(bars, p, i) == Decide(bars, q, i)
  {
    assert Read(bars, p, i) == Read(bars, q, i);
  }

  function Shift(x: Option<Case>, delta: real): Option<Case> {
    if x.None? then None else Some(x.value.(result := x.value.result + delta))
  }

  lemma RecordShifts(bars: seq<Bar>, p: Parameters, q: Parameters, i: int)
    requires Studied(bars, p) && Studied(bars, q) && q == p.(costBps := q.costBps) && Eligible(bars, p, i)
    ensures RecordAt(bars, q, i) == Shift(RecordAt(bars, p, i), p.Cost() - q.Cost())
  {
    DecisionIgnoresCost(bars, p, q, i);
    var d := Decide(bars, p, i);
    if d.Admit? {
      assert WindowEnd(bars, p, i) == WindowEnd(bars, q, i);
      assert CaseAt(bars, q, i, d).result == CaseAt(bars, p, i, d).result + (p.Cost() - q.Cost());
    }
  }

  predicate Shifted(a: seq<Case>, b: seq<Case>, delta: real) {
    |a| == |b| && forall k :: 0 <= k < |a| ==> b[k] == a[k].(result := a[k].result + delta)
  }

  lemma PrependShifted(x: Option<Case>, a: seq<Case>, b: seq<Case>, delta: real)
    requires Shifted(a, b, delta)
    ensures Shifted(Listed(x) + a, Listed(Shift(x, delta)) + b, delta)
  {
  }

  lemma {:induction false} SteppedShift(rs: seq<Option<Case>>, ss: seq<Option<Case>>, delta: real, from: nat, limit: int, step: nat)
    requires limit <= |rs| == |ss| && 0 < step
    requires forall i :: from <= i < limit ==> ss[i] == Shift(rs[i], delta)
    ensures Shifted(Stepped(rs, from, limit, step), Stepped(ss, from, limit, step), delta)
    decreases limit - from
  {
    if from < limit {
      SteppedShift(rs, ss, delta, from + step, limit, step);
      PrependShifted(rs[from], Stepped(rs, from + step, limit, step), Stepped(ss, from + step, limit, step), delta);
    }
  }

  /** Changing only the cost keeps the same cases and shifts every return by the same amount. */
  lemma {:induction false} CostOnlyShiftsReturns(bars: seq<Bar>, p: Parameters, q: Parameters)
    requires Studied(bars, p) && Studied(bars, q) && q == p.(costBps := q.costBps)
    ensures Shifted(Cases(bars, p), Cases(bars, q), p.Cost() - q.Cost())
  {
    var rs, ss, delta := Records(bars, p), Records(bars, q), p.Cost() - q.Cost();
    forall i | 61 <= i < |bars| - p.horizon ensures ss[i] == Shift(rs[i], delta) {
      RecordShifts(bars, p, q, i);
    }
    SteppedShift(rs, ss, delta, ReservedStart(bars), |bars| - p.horizon, p.horizon);
  }

  lemma LowerReturns(lower: seq<Case>, higher: seq<Case>)
    requires |lower| == |higher| && forall k :: 0 <= k < |lower| ==> lower[k].result <= higher[k].result
    ensures Drawdown.Below(Returns(lower), Returns(higher))
  {
  }

  /** Raising the round-trip cost never lowers the measured drawdown. */
  lemma {:induction false} CostNeverHidesDrawdown(bars: seq<Bar>, p: Parameters, q: Parameters)
    requires Studied(bars, p) && Studied(bars, q) && q == p.(costBps := q.costBps) && p.costBps <= q.costBps
    ensures ReportOf(bars, p).maximumDrawdown <= ReportOf(bars, q).maximumDrawdown
  {
    CostOnlyShiftsReturns(bars, p, q);
    assert p.Cost() <= q.Cost();
    LowerReturns(Cases(bars, q), Cases(bars, p));
    Drawdown.LowerReturnsFallFurther(Returns(Cases(bars, q)), Returns(Cases(bars, p)));
  }

  // ---- folds ----

  /** The three folds are consecutive, cover every return once, and differ in size by at most one. */
  lemma FoldsPartition(xs: seq<real>)
    ensures Section(xs, 0) + Section(xs, 1) + Section(xs, 2) == xs
    ensures forall f :: 0 <= f < 3 ==> |xs| / 3 <= |Section(xs, f)| <= |xs| / 3 + 1
  {
    Thirds(|xs|);
    assert Section(xs, 0) == xs[..|xs| / 3];
    assert Section(xs, 2) == xs[2 * |xs| / 3..];
  }

  lemma Thirds(n: nat)
    ensures n * 0 / 3 == 0 && n * 1 / 3 == n / 3 && n * 2 / 3 == 2 * n / 3 && n * 3 / 3 == n
    ensures n / 3 <= 2 * n / 3 - n / 3 <= n / 3 + 1
    ensures n / 3 <= n - 2 * n / 3 <= n / 3 + 1
  {
  }

  // ---- every case is within bounds ----

  /** Days inside the horizon, at most one level recorded, excursions around the gross outcome and around zero. */
  predicate Sound(c: Case, p: Parameters) {
    && (c.targetDay.None? || c.invalidationDay.None?)
    && (c.targetDay.Some? ==> 1 <= c.targetDay.value <= p.horizon)
    && (c.invalidationDay.Some? ==> 1 <= c.invalidationDay.value <= p.horizon)
    && c.mae <= c.result + p.Cost() <= c.mfe
    && c.mae <= 0.0 <= c.mfe
  }

  lemma RecordIsSound(bars: seq<Bar>, p: Parameters, i: int)
    requires Studied(bars, p) && Eligible(bars, p, i) && RecordAt(bars, p, i).Some?
    ensures Sound(RecordAt(bars, p, i).value, p)
  {
    var d := Decide(bars, p, i);
    ExitWithinExcursions(bars, p, i, Levels(d.target, d.invalidation));
  }

  /** Every measured case is sound. */
  lemma {:induction false} CasesAreSound(bars: seq<Bar>, p: Parameters, k: nat)
    requires Studied(bars, p) && k < |Cases(bars, p)|
    ensures Sound(Cases(bars, p)[k], p)
  {
    hide RecordAt;
    var rs, start, limit := Records(bars, p), ReservedStart(bars), |bars| - p.horizon;
    KeptAreStepped(rs, start, limit, p.horizon);
    var i := Kept(rs, start, limit, p.horizon)[k];
    assert rs[i] == RecordAt(bars, p, i);
    RecordIsSound(bars, p, i);
  }

  /** Before costs, a recorded result is at most what any intraday path behind the bars of its window realises. */
  lemma RecordIsConservative(bars: seq<Bar>, p: Parameters, i: int, paths: seq<seq<real>>)
    requires Studied(bars, p) && Eligible(bars, p, i) && RecordAt(bars, p, i).Some? && AllSummarise(bars, paths)
    ensures var d, e := Decide(bars, p, i), WindowEnd(bars, p, i);
      && i < e <= |bars|
      && RecordAt(bars, p, i).value.result + p.Cost()
         <= Gain(PathExit(paths, i, e, Levels(d.target, d.invalidation)), bars[i].open)
  {
    hide PathExit, FirstTouch;
    var d := Decide(bars, p, i);
    WindowIsCalendarHorizon(bars, p, i);
    ExitIsConservative(bars, paths, i, i, WindowEnd(bars, p, i), bars[i].open, Levels(d.target, d.invalidation));
  }
}

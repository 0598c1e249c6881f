/**
 The engine-result contract and the PASS / FAIL / INSUFFICIENT_EVIDENCE verdict,
 with the controls that the adapter and the CIO audit later demand of a PASS.
 */
module LeanVerdict {
  import opened Common
  import opened Study
  import opened StudyReport
  import Drawdown

  function Observed(folds: seq<Fold>): nat {
    if folds == [] then 0 else Observed(folds[..|folds| - 1]) + folds[|folds| - 1].observations
  }

  predicate DayInSchema(day: Option<int>) { day.Some? ==> 1 <= day.value <= 30 }

  /** Field bounds of the engine-result schema. */
  predicate InSchema(r: Report) {
    && 0.0 <= r.maximumDrawdown <= 1.0
    && (forall k :: 0 <= k < |r.cases| ==> DayInSchema(r.cases[k].targetDay) && DayInSchema(r.cases[k].invalidationDay))
    && (forall k :: 0 <= k < |r.sensitivity| ==> 0.0 <= r.sensitivity[k].maximumDrawdown <= 1.0)
  }

  /** The cross-field rules of the engine-result validator. */
  predicate Consistent(r: Report) {
    && r.observations == |r.cases|
    && Observed(r.folds) == r.observations
    && (r.observations > 0 ==> r.mean.Some? && r.stressMean.Some?)
  }

  // ---- every study result is accepted ----

  lemma FoldsCover(rs: seq<real>)
    ensures Observed(Folds(rs)) == |rs|
  {
    FoldsPartition(rs);
    var folds := Folds(rs);
    assert folds[..2] == [FoldAt(rs, 0), FoldAt(rs, 1)];
    assert folds[..2][..1] == [FoldAt(rs, 0)];
    assert folds[..2][..1][..0] == [];
    assert Observed(folds[..2][..1]) == |Section(rs, 0)|;
    assert Observed(folds[..2]) == |Section(rs, 0)| + |Section(rs, 1)|;
    assert |Section(rs, 0) + Section(rs, 1) + Section(rs, 2)| == |rs|;
  }

  lemma {:induction false} SummaryIsConsistent(cases: seq<Case>, bars: nat, cost: real)
    ensures Consistent(Summarise(cases, bars, cost))
    ensures 0.0 <= Summarise(cases, bars, cost).maximumDrawdown <= 1.0
  {
    FoldsCover(Returns(cases));
    Drawdown.DrawdownIsFraction(Returns(cases));
  }

  predicate Fractional(s: Sensitivity) { 0.0 <= s.maximumDrawdown <= 1.0 && (s.observations > 0 ==> s.mean.Some?) }

  lemma {:induction false} SensitivityIsFractional(bars: seq<Bar>, p: Parameters)
    requires Studied(bars, p)
    ensures Fractional(SensitivityOf(bars, p))
  {
    SummaryIsConsistent(Cases(bars, p), |bars|, p.Cost());
  }

  lemma {:induction false} SensitivitiesAreFractional(bars: seq<Bar>, vs: seq<Parameters>)
    requires forall k :: 0 <= k < |vs| ==> Studied(bars, vs[k])
    ensures forall k :: 0 <= k < |vs| ==> Fractional(SensitivitiesOf(bars, vs)[k])
  {
    if vs != [] {
      SensitivitiesAreFractional(bars, vs[..|vs| - 1]);
      SensitivityIsFractional(bars, vs[|vs| - 1]);
    }
  }

  /** Whatever the study returns passes the engine-result validator and all its bounds. */
  lemma {:induction false} StudyMeetsContract(bars: seq<Bar>, p: Parameters)
    requires WellFormed(bars) && EvaluateStudy(bars, p).Ok?
    ensures var r := EvaluateStudy(bars, p).value;
            InSchema(r) && Consistent(r) && |r.folds| == 3 && |r.sensitivity| == 6
    ensures var r := EvaluateStudy(bars, p).value;
            forall k :: 0 <= k < |r.sensitivity| ==> Fractional(r.sensitivity[k])
  {
    var cases, ss := Cases(bars, p), SensitivitiesOf(bars, Variations(p));
    SensitivitiesAreFractional(bars, Variations(p));
    forall k | 0 <= k < |cases| ensures Sound(cases[k], p) { CasesAreSound(bars, p, k); }
    ContractFromParts(cases, ss, |bars|, p);
  }

  lemma {:induction false} ContractFromParts(cases: seq<Case>, ss: seq<Sensitivity>, bars: nat, p: Parameters)
    requires p.Accepted() && forall k :: 0 <= k < |cases| ==> Sound(cases[k], p)
    requires forall k :: 0 <= k < |ss| ==> Fractional(ss[k])
    ensures var r := Summarise(cases, bars, p.Cost()).(sensitivity := ss); InSchema(r) && Consistent(r)
  {
    SummaryIsConsistent(cases, bars, p.Cost());
  }

  // ---- the verdict ----

  datatype State = Pass | Fail | Insufficient

  /** Comparing an absent mean with zero raises instead of deciding. */
  datatype Judgement = Decided(state: State) | Raised

  predicate FoldsCovered(r: Report) {
    |r.folds| == 3 && forall k :: 0 <= k < 3 ==> r.folds[k].observations >= 10
  }

  predicate SensitivityCovered(r: Report, minimum: nat) {
    |r.sensitivity| == 6 && forall k :: 0 <= k < 6 ==> r.sensitivity[k].observations >= minimum
  }

  predicate Covered(r: Report, minimum: nat) {
    r.observations >= minimum && FoldsCovered(r) && SensitivityCovered(r, minimum) && |r.regimes| >= 2
  }

  /** Scans for a sensitivity run with a non-positive mean, stopping at the first one. */
  function ScanSensitivity(ss: seq<Sensitivity>): Judgement {
    if ss == [] then Decided(Pass)
    else if ss[0].mean.None? then Raised
    else if ss[0].mean.value <= 0.0 then Decided(Fail)
    else ScanSensitivity(ss[1..])
  }

  function Judge(qualified: bool, r: Report, minimum: nat, drawdownLimit: real): Judgement {
    if !qualified || !Covered(r, minimum) then Decided(Insufficient)
    else if r.mean.None? then Raised
    else if r.mean.value <= 0.0 then Decided(Fail)
    else if r.stressMean.None? then Raised
    else if r.stressMean.value <= 0.0 || r.maximumDrawdown > drawdownLimit then Decided(Fail)
    else ScanSensitivity(r.sensitivity)
  }

  predicate Positive(s: Sensitivity) { s.mean.Some? && s.mean.value > 0.0 }

  predicate AllPositive(ss: seq<Sensitivity>) { forall k :: 0 <= k < |ss| ==> Positive(ss[k]) }

  /** Run `k` has no mean and every run before it has a positive one. */
  predicate MissingAt(ss: seq<Sensitivity>, k: int) {
    0 <= k < |ss| && ss[k].mean.None? && AllPositive(ss[..k])
  }

  /** The scan raises exactly when a run without a mean comes before every run that fails. */
  lemma {:induction false} ScanRaisesIff(ss: seq<Sensitivity>)
    ensures ScanSensitivity(ss).Raised? <==> exists k :: MissingAt(ss, k)
    ensures ScanSensitivity(ss) == Decided(Pass) <==> AllPositive(ss)
  {
    if ss != [] {
      var rest := ss[1..];
      ScanRaisesIff(rest);
      assert ss == [ss[0]] + rest;
      if k :| MissingAt(rest, k) { assert ss[..k + 1] == [ss[0]] + rest[..k]; assert Positive(ss[0]) ==> MissingAt(ss, k + 1); }
      if ss[0].mean.None? { assert MissingAt(ss, 0); }
      if k :| MissingAt(ss, k) && k > 0 { assert ss[..k][0] == ss[0]; assert rest[..k - 1] == ss[..k][1..]; assert MissingAt(rest, k - 1); }
    }
  }

  /** A validated result can still raise, and does so exactly through a sensitivity run that has observations but no mean. */
  lemma VerdictRaisesIff(qualified: bool, r: Report, minimum: nat, drawdownLimit: real)
    requires Consistent(r) && minimum >= 30
    ensures Judge(qualified, r, minimum, drawdownLimit).Raised? <==>
      && qualified && Covered(r, minimum) && r.mean.value > 0.0 && r.stressMean.value > 0.0
      && r.maximumDrawdown <= drawdownLimit && exists k :: MissingAt(r.sensitivity, k)
  {
    ScanRaisesIff(r.sensitivity);
  }

  /** On study results the verdict never compares a missing mean. */
  lemma {:induction false} StudyVerdictDecides(bars: seq<Bar>, p: Parameters, qualified: bool, minimum: nat, drawdownLimit: real)
    requires WellFormed(bars) && EvaluateStudy(bars, p).Ok? && minimum >= 30
    ensures Judge(qualified, EvaluateStudy(bars, p).value, minimum, drawdownLimit).Decided?
  {
    StudyMeetsContract(bars, p);
    var r := EvaluateStudy(bars, p).value;
    EveryMeanDecides(qualified, r, minimum, drawdownLimit);
  }

  lemma EveryMeanDecides(qualified: bool, r: Report, minimum: nat, drawdownLimit: real)
    requires Consistent(r) && minimum >= 30
    requires forall k :: 0 <= k < |r.sensitivity| ==> Fractional(r.sensitivity[k])
    ensures Judge(qualified, r, minimum, drawdownLimit).Decided?
  {
    VerdictRaisesIff(qualified, r, minimum, drawdownLimit);
  }

  function Bland(): Case { Case(0, 0.01, 0.0, 0.01, None, None, true) }

  /** A result an engine could send: thirty bland cases, with these sensitivity means and these regimes. */
  function Sent(mean: Option<real>, regimes: seq<bool>): Report {
    var run := Sensitivity(30, mean, 0.0);
    Report(30, 100, Some(0.01), 0.0, Some(0.0), Some(0.01), 0, 0, [Fold(10, None), Fold(10, None), Fold(10, None)],
           regimes, Some(0.005), seq(30, _ => Bland()), [run, run, run, run, run, run])
  }

  lemma SentIsValidated(mean: Option<real>, regimes: seq<bool>)
    ensures InSchema(Sent(mean, regimes)) && Consistent(Sent(mean, regimes))
  {
    var folds := Sent(mean, regimes).folds;
    assert folds[..2] == [Fold(10, None), Fold(10, None)];
    assert folds[..2][..1] == [Fold(10, None)];
    assert folds[..2][..1][..0] == [];
    assert Observed(folds[..2][..1]) == 10;
    assert Observed(folds[..2]) == 20;
  }

  /** A result the validator accepts on which the verdict raises: the first sensitivity run lacks its mean. */
  lemma ValidatedResultCanRaise() returns (r: Report)
    ensures InSchema(r) && Consistent(r) && Judge(true, r, 30, 0.25).Raised?
  {
    r := Sent(None, [false, true]);
    SentIsValidated(None, [false, true]);
  }

  /** A result the validator accepts that passes with a single regime, listed twice. */
  lemma RepeatedRegimeCanPass() returns (r: Report)
    ensures InSchema(r) && Consistent(r) && Judge(true, r, 30, 0.25) == Decided(Pass) && false !in r.regimes
  {
    r := Sent(Some(0.01), [true, true]);
    SentIsValidated(Some(0.01), [true, true]);
    ScanRaisesIff(r.sensitivity);
  }

  /** A PASS names both regimes exactly when its list has two distinct entries; the verdict counts entries, not distinct ones. */
  lemma PassNamesBothIff(qualified: bool, r: Report, minimum: nat, drawdownLimit: real)
    requires Judge(qualified, r, minimum, drawdownLimit) == Decided(Pass)
    ensures |r.regimes| >= 2
    ensures (false in r.regimes && true in r.regimes) <==> |DistinctRegimes(r)| >= 2
  {
    var distinct := DistinctRegimes(r);
    if false in r.regimes && true in r.regimes {
      SubsetSize({false, true}, distinct);
    } else {
      var only := if false in r.regimes then false else true;
      forall t | t in distinct ensures t in {only} { assert t in r.regimes; }
      SubsetSize(distinct, {only});
    }
  }

  function DistinctRegimes(r: Report): set<bool> { set t | t in r.regimes }

  /** A covered study result really has cases of both regimes. */
  lemma CoveredStudyShowsBoth(bars: seq<Bar>, p: Parameters, minimum: nat)
    requires WellFormed(bars) && EvaluateStudy(bars, p).Ok? && Covered(EvaluateStudy(bars, p).value, minimum)
    ensures var cases := EvaluateStudy(bars, p).value.cases; Shows(cases, false) && Shows(cases, true)
  {
    hide Cases, SensitivitiesOf;
  }

  /** Enough observations already cover the folds of a study result. */
  lemma {:induction false} SampleCoversFolds(cases: seq<Case>, bars: nat, cost: real)
    requires |cases| >= 30
    ensures FoldsCovered(Summarise(cases, bars, cost))
  {
    FoldsPartition(Returns(cases));
  }

  // ---- the validation report and what a PASS must carry ----

  datatype Validation = Validation(
    state: State, observations: nat, walkForward: bool, outOfSample: bool, pitSafe: bool, survivorshipChecked: bool,
    costsIncluded: bool, sensitivityChecked: bool, spreadBps: Option<real>, slippageBps: Option<real>)

  function Validate(qualified: bool, r: Report, minimum: nat, drawdownLimit: real, spread: real, slippage: real): Option<Validation> {
    var verdict := Judge(qualified, r, minimum, drawdownLimit);
    if verdict.Raised? then None
    else Some(Validation(verdict.state, r.observations, FoldsCovered(r), r.observations >= minimum, true, qualified, true,
                         SensitivityCovered(r, minimum), Some(spread), Some(slippage)))
  }

  /** The adapter refuses a PASS without these. */
  predicate AdapterDemands(v: Validation) {
    && v.observations > 0 && v.walkForward && v.outOfSample && v.pitSafe && v.survivorshipChecked && v.costsIncluded
    && v.sensitivityChecked && v.spreadBps.Some? && v.slippageBps.Some?
  }

  /** The CIO audit records a finding without these. */
  predicate AuditDemands(v: Validation) {
    && v.state == Pass && v.observations >= 30 && v.walkForward && v.outOfSample && v.pitSafe && v.survivorshipChecked
    && v.costsIncluded && v.sensitivityChecked && v.spreadBps.Some? && v.slippageBps.Some?
  }

  /** A PASS carries every later control, and is exactly a qualified, covered study whose every measured mean is positive. */
  lemma PassIff(qualified: bool, r: Report, minimum: nat, drawdownLimit: real, spread: real, slippage: real)
    requires Consistent(r) && minimum >= 30
    ensures var v := Validate(qualified, r, minimum, drawdownLimit, spread, slippage);
      && (v.Some? && v.value.state == Pass <==>
            && qualified && Covered(r, minimum) && r.mean.value > 0.0 && r.stressMean.value > 0.0
            && r.maximumDrawdown <= drawdownLimit && AllPositive(r.sensitivity))
      && (v.Some? && v.value.state == Pass ==> AdapterDemands(v.value) && AuditDemands(v.value))
  {
    ScanRaisesIff(r.sensitivity);
  }
}

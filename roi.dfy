/**
 * The ROI estimation of the calculator (main.js, `updateROI` and the data
 * series of `updateROIChart`), over exact rationals. A JavaScript NaN is
 * `None`; `Math.round(x)` is `(x + 0.5).Floor` and `Math.ceil(x)` is
 * `-((-x).Floor)`.
 */
module Roi {
  import opened Wrappers
  import Goals

  const BaseCostPerEmployee: real := 40000.0
  const ImplementationCostPerEmployee: real := 2000.0
  /** Share of the efficiency gain that is counted as savings. */
  const SavingsShare: real := 0.3
  /** Yearly upkeep as a share of the implementation cost. */
  const UpkeepRate: real := 0.15
  const RoiCap: int := 500
  const PaybackCap: int := 36

  function MaxReal(a: real, b: real): (m: real)
    ensures m >= a && m >= b && (m == a || m == b)
  {
    if a >= b then a else b
  }

  function MinInt(a: int, b: int): (m: int)
    ensures m <= a && m <= b && (m == a || m == b)
  {
    if a <= b then a else b
  }

  /** `Math.round`: the nearest integer, halves rounded up. */
  function Round(x: real): (r: int)
    ensures r as real - 0.5 <= x < r as real + 0.5
  {
    (x + 0.5).Floor
  }

  /** `Math.ceil`: the least integer not below `x`. */
  function Ceil(x: real): (r: int)
    ensures r as real - 1.0 < x <= r as real
  {
    -((-x).Floor)
  }

  /** `totalLaborCost`: zero without staff, positive with staff. */
  function LaborCost(companySize: int): (c: real)
    ensures c == 0.0 <==> companySize == 0
    ensures c > 0.0 <==> companySize > 0
  {
    companySize as real * BaseCostPerEmployee
  }

  /** `potentialSavings`: 30% of the labour cost the efficiency gain frees. */
  function PotentialSavings(companySize: int, efficiencyGain: int): (p: real)
    ensures p == 120.0 * companySize as real * efficiencyGain as real
  {
    LaborCost(companySize) * (efficiencyGain as real / 100.0) * SavingsShare
  }

  /** `implementationCost`: 2000 per employee, scaled by the cost multiplier. */
  function ImplementationCost(companySize: int, costMultiplier: real): (c: real)
    ensures companySize >= 0 && costMultiplier >= 1.0 ==>
              c >= companySize as real * ImplementationCostPerEmployee
    ensures companySize > 0 && costMultiplier >= 1.0 ==> c > 0.0
    ensures costMultiplier >= 1.0 ==> (c == 0.0 <==> companySize == 0)
  {
    companySize as real * ImplementationCostPerEmployee * costMultiplier
  }

  /** `annualSavings`: potential savings less the yearly upkeep of the implementation. */
  function AnnualSavings(companySize: int, efficiencyGain: int, costMultiplier: real): (s: real)
    ensures s == companySize as real * (120.0 * efficiencyGain as real - 300.0 * costMultiplier)
  {
    PotentialSavings(companySize, efficiencyGain)
      - ImplementationCost(companySize, costMultiplier) * UpkeepRate
  }

  /**
   * The unclamped `roi` before `Math.max`: the net yearly return (annual
   * savings less upkeep) as a percentage of the upkeep. The source does not
   * guard the denominator, so a zero implementation cost gives NaN. The goal
   * loop never yields a multiplier below 1, so a zero cost means zero staff,
   * where the numerator is zero too.
   */
  function RoiRaw(companySize: int, efficiencyGain: int, costMultiplier: real): (r: Option<real>)
    requires costMultiplier >= 1.0
    ensures r.None? <==> ImplementationCost(companySize, costMultiplier) == 0.0
    ensures r.Some? ==>
              var upkeep := ImplementationCost(companySize, costMultiplier) * UpkeepRate;
              r.value * upkeep == (AnnualSavings(companySize, efficiencyGain, costMultiplier) - upkeep) * 100.0
  {
    var upkeep := ImplementationCost(companySize, costMultiplier) * UpkeepRate;
    if upkeep == 0.0 then None
    else Some((AnnualSavings(companySize, efficiencyGain, costMultiplier) - upkeep) / upkeep * 100.0)
  }

  /** `x` clamped to `[lo, hi]`. */
  function Clamp(x: real, lo: real, hi: real): real
    requires lo <= hi
  {
    if x < lo then lo else if x > hi then hi else x
  }

  /**
   * The displayed ROI, `Math.min(500, Math.round(Math.max(0, roi)))`: NaN
   * exactly when the implementation cost is zero, and otherwise the integer
   * nearest to the raw ROI clamped to [0, 500].
   */
  function DisplayedRoi(companySize: int, efficiencyGain: int, costMultiplier: real): (r: Option<int>)
    requires costMultiplier >= 1.0
    ensures r.None? <==> ImplementationCost(companySize, costMultiplier) == 0.0
    ensures r.Some? ==> 0 <= r.value <= RoiCap
    ensures r.Some? ==>
              var clamped := Clamp(RoiRaw(companySize, efficiencyGain, costMultiplier).value, 0.0, RoiCap as real);
              r.value as real - 0.5 <= clamped < r.value as real + 0.5
  {
    match RoiRaw(companySize, efficiencyGain, costMultiplier)
    case None => None
    case Some(roi) => Some(MinInt(RoiCap, Round(MaxReal(0.0, roi))))
  }

  /** The payback divisor `Math.max(1, annualSavings / 12)`: never below 1. */
  function PaybackDivisor(annualSavings: real): (d: real)
    ensures d >= 1.0 && d >= annualSavings / 12.0
    ensures d == 1.0 || d == annualSavings / 12.0
  {
    MaxReal(1.0, annualSavings / 12.0)
  }

  /** `paybackMonths` before the cap: months of savings that cover the cost, rounded up. */
  function PaybackMonths(companySize: int, efficiencyGain: int, costMultiplier: real): (m: int)
    ensures var d := PaybackDivisor(AnnualSavings(companySize, efficiencyGain, costMultiplier));
            var cost := ImplementationCost(companySize, costMultiplier);
            (m - 1) as real * d < cost <= m as real * d
  {
    var d := PaybackDivisor(AnnualSavings(companySize, efficiencyGain, costMultiplier));
    var cost := ImplementationCost(companySize, costMultiplier);
    var m := Ceil(cost / d);
    assert m as real * d >= cost by { MulDivBound(cost, d, m as real); }
    assert (m - 1) as real * d < cost by { MulDivBelow(cost, d, (m - 1) as real); }
    m
  }

  lemma MulDivBound(x: real, d: real, m: real)
    requires d > 0.0 && x / d <= m
    ensures x <= m * d
  {
    assert x == (x / d) * d;
  }

  lemma MulDivBelow(x: real, d: real, m: real)
    requires d > 0.0 && m < x / d
    ensures m * d < x
  {
    assert x == (x / d) * d;
  }

  /** The displayed payback, `Math.min(36, paybackMonths)`. */
  function DisplayedPayback(companySize: int, efficiencyGain: int, costMultiplier: real): (p: int)
    ensures p <= PaybackCap
    ensures p <= PaybackMonths(companySize, efficiencyGain, costMultiplier)
    ensures ImplementationCost(companySize, costMultiplier) > 0.0 ==> p >= 1
    ensures p < PaybackCap ==> p == PaybackMonths(companySize, efficiencyGain, costMultiplier)
  {
    MinInt(PaybackCap, PaybackMonths(companySize, efficiencyGain, costMultiplier))
  }

  /** The displayed savings, `Math.round(annualSavings / 1000) * 1000`. */
  function DisplayedSavings(annualSavings: real): (s: int)
    ensures s % 1000 == 0
    ensures annualSavings - 500.0 < s as real <= annualSavings + 500.0
  {
    Round(annualSavings / 1000.0) * 1000
  }

  /** The "Cumulative Savings" series for years 1 to 5. */
  function SavingsSeries(annualSavings: real): (s: seq<real>)
    ensures |s| == 5
    ensures forall i :: 0 <= i < 5 ==> s[i] == annualSavings * (i as real + 0.5)
  {
    [annualSavings * 0.5, annualSavings * 1.5, annualSavings * 2.5,
     annualSavings * 3.5, annualSavings * 4.5]
  }

  /** The "Implementation Cost" series: the full cost in year 1, a fifth of it after. */
  function CostSeries(implementationCost: real): (s: seq<real>)
    ensures |s| == 5 && s[0] == implementationCost
    ensures forall i :: 1 <= i < 5 ==> s[i] * 5.0 == implementationCost
  {
    [implementationCost, implementationCost * 0.2, implementationCost * 0.2,
     implementationCost * 0.2, implementationCost * 0.2]
  }

  /** Consecutive savings points are one year's savings apart. */
  lemma SavingsSeriesSteps(annualSavings: real)
    ensures var s := SavingsSeries(annualSavings);
            forall i :: 0 <= i < 4 ==> s[i + 1] - s[i] == annualSavings
  {
  }

  /** With positive annual savings the savings series strictly increases. */
  lemma SavingsSeriesIncreasing(annualSavings: real)
    requires annualSavings > 0.0
    ensures var s := SavingsSeries(annualSavings);
            forall i, j :: 0 <= i < j < 5 ==> s[i] < s[j]
  {
    var s := SavingsSeries(annualSavings);
    forall i, j | 0 <= i < j < 5
      ensures s[i] < s[j]
    {
      assert s[j] - s[i] == annualSavings * (j - i) as real;
    }
  }

  /** Consecutive savings points stand in the ratio (i + 1.5) / (i + 0.5). */
  lemma SavingsSeriesRatio(annualSavings: real)
    ensures var s := SavingsSeries(annualSavings);
            forall i :: 0 <= i < 4 ==> s[i + 1] * (i as real + 0.5) == s[i] * (i as real + 1.5)
  {
  }

  /** With no goal checked the yearly upkeep is pure loss: -300 per employee. */
  lemma NoGoalsSavings(companySize: int)
    ensures AnnualSavings(companySize, 0, 1.0) == -300.0 * companySize as real
  {
  }

  /**
   * With no goal checked and a positive company size, the ROI shows 0 and
   * the payback hits its cap of 36 months.
   */
  lemma NoGoalsDisplays(companySize: int)
    requires companySize > 0
    ensures DisplayedRoi(companySize, 0, 1.0) == Some(0)
    ensures DisplayedPayback(companySize, 0, 1.0) == PaybackCap
  {
    var cost := ImplementationCost(companySize, 1.0);
    var upkeep := cost * UpkeepRate;
    NoGoalsSavings(companySize);
    assert RoiRaw(companySize, 0, 1.0).value == -200.0 by {
      assert RoiRaw(companySize, 0, 1.0).value * upkeep == -200.0 * upkeep;
    }
    assert PaybackDivisor(AnnualSavings(companySize, 0, 1.0)) == 1.0;
    assert PaybackMonths(companySize, 0, 1.0) >= 2000;
  }

  /** A company of zero employees has no costs and no savings, and its ROI is NaN. */
  lemma NoStaff(efficiencyGain: int, costMultiplier: real)
    requires costMultiplier >= 1.0
    ensures ImplementationCost(0, costMultiplier) == 0.0
    ensures AnnualSavings(0, efficiencyGain, costMultiplier) == 0.0
    ensures DisplayedRoi(0, efficiencyGain, costMultiplier) == None
    ensures DisplayedPayback(0, efficiencyGain, costMultiplier) == 0
    ensures DisplayedSavings(AnnualSavings(0, efficiencyGain, costMultiplier)) == 0
  {
  }

  /** 100 employees with only "process" checked. */
  lemma ProcessOnlyExample()
    ensures ImplementationCost(100, 1.5) == 300000.0
    ensures LaborCost(100) == 4000000.0
    ensures PotentialSavings(100, 40) == 480000.0
    ensures AnnualSavings(100, 40, 1.5) == 435000.0
    ensures DisplayedRoi(100, 40, 1.5) == Some(500)
    ensures DisplayedPayback(100, 40, 1.5) == 9
    ensures DisplayedSavings(AnnualSavings(100, 40, 1.5)) == 435000
  {
    assert RoiRaw(100, 40, 1.5).value * 45000.0 == 390000.0 * 100.0;
    assert PaybackDivisor(435000.0) == 36250.0;
  }

  /** 100 employees with all four goals checked. */
  lemma AllGoalsExample()
    ensures ImplementationCost(100, 2.8) == 560000.0
    ensures AnnualSavings(100, 185, 2.8) == 2136000.0
    ensures DisplayedRoi(100, 185, 2.8) == Some(500)
    ensures DisplayedPayback(100, 185, 2.8) == 4
  {
    assert RoiRaw(100, 185, 2.8).value * 84000.0 == 2052000.0 * 100.0;
    assert PaybackDivisor(2136000.0) == 178000.0;
  }

  /** Everything `updateROI` computes and hands to the page and the chart. */
  datatype RoiReport = RoiReport(
    efficiencyGain: int,
    costMultiplier: real,
    implementationCost: real,
    annualSavings: real,
    displayedSavings: int,
    displayedRoi: Option<int>,
    displayedPayback: int,
    savingsSeries: seq<real>,
    costSeries: seq<real>)

  /**
   * `updateROI` followed by `updateROIChart`: accumulate the checked goals,
   * then derive the figures and the two series.
   */
  method UpdateRoi(companySize: int, goals: seq<Goals.GoalBox>) returns (report: RoiReport)
    ensures report.efficiencyGain == Goals.EfficiencyGain(goals)
    ensures report.costMultiplier == Goals.CostMultiplierTenths(goals) as real / 10.0
    ensures report.costMultiplier >= 1.0
    ensures report.annualSavings == AnnualSavings(companySize, report.efficiencyGain, report.costMultiplier)
    ensures report.implementationCost == ImplementationCost(companySize, report.costMultiplier)
    ensures report.displayedRoi == DisplayedRoi(companySize, report.efficiencyGain, report.costMultiplier)
    ensures report.displayedPayback == DisplayedPayback(companySize, report.efficiencyGain, report.costMultiplier)
    ensures report.displayedSavings == DisplayedSavings(report.annualSavings)
    ensures report.savingsSeries == SavingsSeries(report.annualSavings)
    ensures report.costSeries == CostSeries(report.implementationCost)
    ensures companySize >= 0 ==> report.implementationCost >= companySize as real * ImplementationCostPerEmployee
    ensures report.displayedRoi.None? <==> companySize == 0
    ensures report.displayedRoi.Some? ==> 0 <= report.displayedRoi.value <= RoiCap
    ensures report.displayedPayback <= PaybackCap
    ensures companySize > 0 ==> report.displayedPayback >= 1
    ensures report.displayedSavings % 1000 == 0
    ensures |report.savingsSeries| == 5 && |report.costSeries| == 5
    ensures report.annualSavings > 0.0 ==>
              forall i, j :: 0 <= i < j < 5 ==> report.savingsSeries[i] < report.savingsSeries[j]
  {
    var efficiencyGain, costMultiplier := Goals.AccumulateGoals(goals);
    Goals.TotalNonNegative(goals, Goals.DeltaTenths);
    var implementationCost := ImplementationCost(companySize, costMultiplier);
    var annualSavings := AnnualSavings(companySize, efficiencyGain, costMultiplier);
    if annualSavings > 0.0 {
      SavingsSeriesIncreasing(annualSavings);
    }
    report := RoiReport(
      efficiencyGain, costMultiplier, implementationCost, annualSavings,
      DisplayedSavings(annualSavings),
      DisplayedRoi(companySize, efficiencyGain, costMultiplier),
      DisplayedPayback(companySize, efficiencyGain, costMultiplier),
      SavingsSeries(annualSavings),
      CostSeries(implementationCost));
  }
}

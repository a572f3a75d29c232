/**
 * The automation-goal checkboxes of the ROI calculator and the accumulation
 * of their coefficients (main.js, `updateROI`). Each checkbox carries a
 * `data-value` and a checked flag; a checked box with a known value adds a
 * fixed number of efficiency points and a fixed cost-multiplier delta.
 * Deltas are kept in tenths: 0.5, 0.3, 0.4 and 0.6 are 5, 3, 4 and 6.
 */
module Goals {

  /** One `.automation-goal` checkbox: its `data-value` and whether it is checked. */
  datatype GoalBox = GoalBox(value: string, checked: bool)

  /** The four values the `switch` recognises. */
  const KnownGoals: set<string> := {"process", "analytics", "customer", "prediction"}

  /** Efficiency points of a goal value; 0 for a value the switch does not know. */
  function GainPoints(value: string): (p: int)
    ensures p >= 0
    ensures p > 0 <==> value in KnownGoals
  {
    if value == "process" then 40
    else if value == "analytics" then 35
    else if value == "customer" then 50
    else if value == "prediction" then 60
    else 0
  }

  /** Cost-multiplier delta of a goal value in tenths; 0 for an unknown value. */
  function DeltaTenths(value: string): (d: int)
    ensures d >= 0
    ensures d > 0 <==> value in KnownGoals
  {
    if value == "process" then 5
    else if value == "analytics" then 3
    else if value == "customer" then 4
    else if value == "prediction" then 6
    else 0
  }

  /** A weight gives nothing to a value outside the known goals. */
  ghost predicate OnlyKnownWeigh(weight: string -> int)
  {
    forall v :: v !in KnownGoals ==> weight(v) == 0
  }

  /** What one checkbox adds: its value's weight when checked, nothing otherwise. */
  function Contribution(box: GoalBox, weight: string -> int): int
  {
    if box.checked then weight(box.value) else 0
  }

  /** The sum of the contributions of the boxes, visited in order. */
  function Total(boxes: seq<GoalBox>, weight: string -> int): int
  {
    if boxes == [] then 0
    else Total(boxes[..|boxes| - 1], weight) + Contribution(boxes[|boxes| - 1], weight)
  }

  /** `efficiencyGain` after the loop over the boxes. */
  function EfficiencyGain(boxes: seq<GoalBox>): int
  {
    Total(boxes, GainPoints)
  }

  /** `costMultiplier` after the loop over the boxes, in tenths. */
  function CostMultiplierTenths(boxes: seq<GoalBox>): int
  {
    10 + Total(boxes, DeltaTenths)
  }

  /**
   * The loop of `updateROI` over the checkboxes: starting from 0 and 1, each
   * checked box with a known value adds its points and its delta.
   */
  method AccumulateGoals(boxes: seq<GoalBox>) returns (efficiencyGain: int, costMultiplier: real)
    ensures efficiencyGain == EfficiencyGain(boxes)
    ensures costMultiplier == CostMultiplierTenths(boxes) as real / 10.0
  {
    efficiencyGain := 0;
    costMultiplier := 1.0;
    for i := 0 to |boxes|
      invariant efficiencyGain == Total(boxes[..i], GainPoints)
      invariant costMultiplier == (10 + Total(boxes[..i], DeltaTenths)) as real / 10.0
    {
      assert boxes[..i + 1][..i] == boxes[..i];
      var goal := boxes[i];
      if goal.checked {
        if goal.value == "process" {
          efficiencyGain := efficiencyGain + 40;
          costMultiplier := costMultiplier + 0.5;
        } else if goal.value == "analytics" {
          efficiencyGain := efficiencyGain + 35;
          costMultiplier := costMultiplier + 0.3;
        } else if goal.value == "customer" {
          efficiencyGain := efficiencyGain + 50;
          costMultiplier := costMultiplier + 0.4;
        } else if goal.value == "prediction" {
          efficiencyGain := efficiencyGain + 60;
          costMultiplier := costMultiplier + 0.6;
        }
      }
    }
    assert boxes[..|boxes|] == boxes;
  }

  /** Visiting two runs of boxes one after the other adds their totals. */
  lemma {:induction false} TotalAppend(a: seq<GoalBox>, b: seq<GoalBox>, weight: string -> int)
    ensures Total(a + b, weight) == Total(a, weight) + Total(b, weight)
  {
    if b == [] {
      assert a + b == a;
    } else {
      var n := |b| - 1;
      assert (a + b)[..|a + b| - 1] == a + b[..n];
      TotalAppend(a, b[..n], weight);
    }
  }

  /** A total of non-negative weights is non-negative. */
  lemma {:induction false} TotalNonNegative(boxes: seq<GoalBox>, weight: string -> int)
    requires forall v :: weight(v) >= 0
    ensures Total(boxes, weight) >= 0
  {
    if boxes != [] {
      TotalNonNegative(boxes[..|boxes| - 1], weight);
    }
  }

  /** The totals do not depend on the order in which the boxes are visited. */
  lemma {:induction false} TotalPermutation(s: seq<GoalBox>, t: seq<GoalBox>, weight: string -> int)
    requires multiset(s) == multiset(t)
    ensures Total(s, weight) == Total(t, weight)
    decreases |s|
  {
    if s == [] {
      assert |t| == |multiset(t)| == 0;
    } else {
      var n := |s| - 1;
      var last := s[n];
      assert s == s[..n] + [last];
      assert last in multiset(t);
      var i :| 0 <= i < |t| && t[i] == last;
      var rest := t[..i] + t[i + 1..];
      assert t == t[..i] + [last] + t[i + 1..];
      assert multiset(s[..n]) == multiset(rest) by {
        calc {
          multiset(s[..n]) + multiset{last};
          multiset(s[..n] + [last]);
          multiset(t);
          multiset(t[..i] + [last] + t[i + 1..]);
          multiset(t[..i]) + multiset{last} + multiset(t[i + 1..]);
          multiset(rest) + multiset{last};
        }
        assert multiset(s[..n]) + multiset{last} - multiset{last} == multiset(s[..n]);
        assert multiset(rest) + multiset{last} - multiset{last} == multiset(rest);
      }
      TotalPermutation(s[..n], rest, weight);
      TotalAppend(t[..i] + [last], t[i + 1..], weight);
      TotalAppend(t[..i], [last], weight);
      TotalAppend(t[..i], t[i + 1..], weight);
      assert Total([last], weight) == Contribution(last, weight) by {
        assert [last][..0] == [];
      }
    }
  }

  /** The values of the checked boxes. */
  function CheckedValues(boxes: seq<GoalBox>): set<string>
  {
    set i | 0 <= i < |boxes| && boxes[i].checked :: boxes[i].value
  }

  /** No two boxes share a value, as on the page. */
  ghost predicate DistinctValues(boxes: seq<GoalBox>)
  {
    forall i, j :: 0 <= i < j < |boxes| ==> boxes[i].value != boxes[j].value
  }

  /** The total over a set of selected goals, summing over the four known ones. */
  function SetTotal(goals: set<string>, weight: string -> int): int
  {
    (if "process" in goals then weight("process") else 0)
    + (if "analytics" in goals then weight("analytics") else 0)
    + (if "customer" in goals then weight("customer") else 0)
    + (if "prediction" in goals then weight("prediction") else 0)
  }

  lemma SetTotalAdd(goals: set<string>, v: string, weight: string -> int)
    requires OnlyKnownWeigh(weight)
    requires v !in goals
    ensures SetTotal(goals + {v}, weight) == SetTotal(goals, weight) + weight(v)
  {
  }

  /**
   * Set semantics: when no two boxes share a value, the loop's total is the
   * sum over the set of checked values, and values outside the four known
   * goals contribute nothing.
   */
  lemma {:induction false} TotalIsSetTotal(boxes: seq<GoalBox>, weight: string -> int)
    requires OnlyKnownWeigh(weight)
    requires DistinctValues(boxes)
    ensures Total(boxes, weight) == SetTotal(CheckedValues(boxes), weight)
  {
    if boxes == [] {
      assert CheckedValues(boxes) == {};
    } else {
      var n := |boxes| - 1;
      var init, last := boxes[..n], boxes[n];
      TotalIsSetTotal(init, weight);
      assert last.value !in CheckedValues(init);
      if last.checked {
        assert CheckedValues(boxes) == CheckedValues(init) + {last.value};
        SetTotalAdd(CheckedValues(init), last.value, weight);
      } else {
        assert CheckedValues(boxes) == CheckedValues(init);
      }
    }
  }

  lemma GainWeighsOnlyKnown()
    ensures OnlyKnownWeigh(GainPoints) && OnlyKnownWeigh(DeltaTenths)
  {
  }

  /**
   * With distinct values the efficiency gain lies in [0, 185] and the cost
   * multiplier in [1.0, 2.8]; the upper ends are reached exactly when all
   * four known goals are checked.
   */
  lemma GoalBounds(boxes: seq<GoalBox>)
    requires DistinctValues(boxes)
    ensures 0 <= EfficiencyGain(boxes) <= 185
    ensures 10 <= CostMultiplierTenths(boxes) <= 28
    ensures KnownGoals <= CheckedValues(boxes) ==>
              EfficiencyGain(boxes) == 185 && CostMultiplierTenths(boxes) == 28
    ensures EfficiencyGain(boxes) == 185 ==> KnownGoals <= CheckedValues(boxes)
  {
    GainWeighsOnlyKnown();
    TotalIsSetTotal(boxes, GainPoints);
    TotalIsSetTotal(boxes, DeltaTenths);
  }

  /** A checked box whose value the switch does not know adds nothing. */
  lemma UnknownGoalIgnored(boxes: seq<GoalBox>, box: GoalBox)
    requires box.value !in KnownGoals
    ensures EfficiencyGain(boxes + [box]) == EfficiencyGain(boxes)
    ensures CostMultiplierTenths(boxes + [box]) == CostMultiplierTenths(boxes)
  {
    assert (boxes + [box])[..|boxes|] == boxes;
  }

  /** With no box checked the loop leaves its starting values 0 and 1. */
  lemma {:induction false} NothingChecked(boxes: seq<GoalBox>)
    requires forall i :: 0 <= i < |boxes| ==> !boxes[i].checked
    ensures EfficiencyGain(boxes) == 0 && CostMultiplierTenths(boxes) == 10
  {
    if boxes != [] {
      NothingChecked(boxes[..|boxes| - 1]);
    }
  }

  /** The page's four checkboxes with only "process" checked give 40 points and a multiplier of 1.5. */
  lemma ProcessOnlyBoxes()
    ensures var boxes := [GoalBox("process", true), GoalBox("analytics", false),
                          GoalBox("customer", false), GoalBox("prediction", false)];
            EfficiencyGain(boxes) == 40 && CostMultiplierTenths(boxes) == 15
  {
    var boxes := [GoalBox("process", true), GoalBox("analytics", false),
                  GoalBox("customer", false), GoalBox("prediction", false)];
    assert DistinctValues(boxes);
    assert CheckedValues(boxes) == {"process"} by {
      assert boxes[0].value == "process";
    }
    GainWeighsOnlyKnown();
    TotalIsSetTotal(boxes, GainPoints);
    TotalIsSetTotal(boxes, DeltaTenths);
  }

  /** All four checkboxes checked give 185 points and 2.8, in page order and in reverse order. */
  lemma AllGoalsBoxes()
    ensures var boxes := [GoalBox("process", true), GoalBox("analytics", true),
                          GoalBox("customer", true), GoalBox("prediction", true)];
            EfficiencyGain(boxes) == 185 && CostMultiplierTenths(boxes) == 28
    ensures var reversed := [GoalBox("prediction", true), GoalBox("customer", true),
                             GoalBox("analytics", true), GoalBox("process", true)];
            EfficiencyGain(reversed) == 185 && CostMultiplierTenths(reversed) == 28
  {
    var boxes := [GoalBox("process", true), GoalBox("analytics", true),
                  GoalBox("customer", true), GoalBox("prediction", true)];
    var reversed := [boxes[3], boxes[2], boxes[1], boxes[0]];
    assert DistinctValues(boxes);
    assert KnownGoals <= CheckedValues(boxes) by {
      assert boxes[0].value == "process" && boxes[1].value == "analytics";
      assert boxes[2].value == "customer" && boxes[3].value == "prediction";
    }
    GoalBounds(boxes);
    assert multiset(boxes) == multiset(reversed);
    TotalPermutation(boxes, reversed, GainPoints);
    TotalPermutation(boxes, reversed, DeltaTenths);
  }
}

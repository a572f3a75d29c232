# ROI calculator and solution configurator of the Thinking Mind AI site, in Dafny

This project models the logic in `main.js` of the agency's marketing site. It covers three parts:

- **ROI estimation** (`updateROI` and the data series of `updateROIChart`). Each checked
  automation-goal checkbox adds efficiency points and a cost-multiplier delta:
  process +40/+0.5, analytics +35/+0.3, customer +50/+0.4, prediction +60/+0.6.
  From these the page derives labour cost, potential savings, implementation cost,
  annual savings, ROI and payback. It displays them rounded and clamped, and draws
  two five-point series.
- **Solution lookup** (`getSolutions`). A static table maps an industry and a challenge
  to two canned solutions. The challenges are walked in selection order, the lists found
  are concatenated, and at most three entries are kept.
- **Configurator selection state** (the click handlers of the industry cards and the
  challenge options, `updateSolutionContent` and `checkFormCompletion`). It tracks the
  selected industry, the selected challenges, the checkbox flags, the card highlight,
  the "Get strategy" button and the solution panel.

Files:
- `wrappers.dfy`: `Option`. In the ROI model, `None` stands for JavaScript's NaN.
- `goals.dfy` (module `Goals`): the checkbox loop, as a method proved equal to a fold,
  with lemmas that the fold ignores visiting order and unknown values.
- `roi.dfy` (module `Roi`): the formulas as functions over `real` (exact rationals),
  the chart series, and `UpdateRoi`, which ties them together.
- `solutions.dfy` (module `Solutions`): the table and `GetSolutions` with its loop.
- `configurator.dfy` (module `Configurator`): the class `Configurator` with its invariant.

Modelling choices:
- `Math.round(x)` is `(x + 0.5).Floor`, and `Math.ceil(x)` is `-((-x).Floor)`.
- The cost multiplier is a `real` in the method, as in the source. Its specification
  counts tenths: 10 plus 5, 3, 4 or 6 per goal.
- The source does not guard the ROI denominator `implementationCost * 0.15`. With zero
  employees the page computes 0/0, which is NaN, and displays "NaN%". The model returns
  `None` there.
- `GetSolutions` takes the table as a parameter. The page's table is the constant
  `Solutions.SolutionMap`, and a `Configurator` receives its table when it is built.
- An industry counts as selected under JavaScript truthiness: the value is not null and
  not the empty string.

Edge cases of the code, as the model keeps them:
- The ROI at main.js:442 divides by `implementationCost * 0.15` with no guard. Zero employees
  therefore give 0/0, which is NaN, and the page shows "NaN%" (`Roi.NoStaff`). A negative size
  divides by a negative number.
- The payback at main.js:443 is 0 for zero employees, because the cost is 0. The lower bound
  of 1 holds only for a positive implementation cost (`Roi.DisplayedPayback`).
- The goals are read by a loop over the checkboxes in page order (main.js:413-434). The order
  does not matter (`Goals.TotalPermutation`). When checkbox values are distinct, the loop's sum
  equals the sum over the set of checked values (`Goals.TotalIsSetTotal`).

## Model

| member | source | states |
|---|---|---|
| `Goals.GainPoints` | main.js:415-432 | a value gets positive efficiency points exactly when it is one of the four known goals, and 0 otherwise |
| `Goals.DeltaTenths` | main.js:415-432 | a value gets a positive cost-multiplier delta exactly when it is one of the four known goals, and 0 otherwise |
| `Goals.AccumulateGoals` | main.js:410-434 | the loop over the checkboxes ends with the efficiency gain equal to the sum of points over the checked boxes, and the multiplier equal to 1 plus the sum of their deltas |
| `Goals.TotalAppend` | main.js:413-434 | visiting two runs of checkboxes in a row adds their totals |
| `Goals.TotalNonNegative` | main.js:413-434 | the accumulated totals are never negative, so the multiplier is at least 1 |
| `Goals.TotalPermutation` | main.js:413-434 | the totals do not depend on the order the checkboxes are visited |
| `Goals.TotalIsSetTotal` | main.js:413-434 | with distinct checkbox values, the loop's total is the sum over the set of checked values, and unknown values contribute nothing |
| `Goals.GoalBounds` | main.js:410-434 | with distinct values, the gain lies in [0, 185] and the multiplier in [1.0, 2.8]; the gain is 185 exactly when all four goals are checked |
| `Goals.UnknownGoalIgnored` | main.js:415-432 | a checkbox whose value the switch does not know changes neither total |
| `Goals.NothingChecked` | main.js:410-411 | with no checkbox checked, the gain stays 0 and the multiplier stays 1 |
| `Goals.ProcessOnlyBoxes` | main.js:413-434 | the four checkboxes with only "process" checked give 40 points and a multiplier of 1.5 |
| `Goals.AllGoalsBoxes` | main.js:413-434 | all four checkboxes checked give 185 points and a multiplier of 2.8, in page order and in reverse order |
| `Roi.Round` | main.js:446-447 | `Math.round` returns the integer within one half of x, halves rounding up |
| `Roi.Ceil` | main.js:443 | `Math.ceil` returns the least integer not below x |
| `Roi.ImplementationCost` | main.js:440 | for a cost multiplier of at least 1 (all the goal loop produces): the implementation cost is at least 2000 per employee for a non-negative size, positive for a positive size, and zero exactly when the size is zero |
| `Roi.LaborCost` | main.js:437-438 | the labour cost is zero exactly without staff and positive exactly with staff |
| `Roi.PotentialSavings` | main.js:439 | the potential savings are 120 per employee per efficiency point |
| `Roi.AnnualSavings` | main.js:441 | the annual savings are, per employee, 120 per efficiency point less 300 times the cost multiplier |
| `Roi.RoiRaw` | main.js:442 | the raw ROI is NaN exactly when the implementation cost is zero; otherwise it is the net yearly return as a percentage of the yearly upkeep |
| `Roi.DisplayedRoi` | main.js:442-447 | the displayed ROI is NaN exactly when the implementation cost is zero; otherwise it lies in [0, 500] and is the integer nearest to the raw ROI clamped to [0, 500] |
| `Roi.PaybackDivisor` | main.js:443 | the payback divisor is at least 1 and at least a month of savings, and equals one of the two |
| `Roi.PaybackMonths` | main.js:443 | the payback is the least whole m with m × max(1, annualSavings / 12) ≥ the implementation cost; when monthly savings are below 1 (no goals, for example) this is the cost itself, which the cap of 36 hides |
| `Roi.DisplayedPayback` | main.js:443-452 | the displayed payback is the smaller of 36 and the uncapped payback: at most both, and equal to the uncapped payback below the cap; it is at least 1 when the implementation cost is positive |
| `Roi.DisplayedSavings` | main.js:446 | the displayed savings are a multiple of 1000 and within 500 of the annual savings |
| `Roi.SavingsSeries` | main.js:487-493 | the savings series has five points, and point i is the annual savings times (i + 0.5) |
| `Roi.CostSeries` | main.js:501-507 | the cost series has five points: the full cost first, then a fifth of it four times |
| `Roi.SavingsSeriesSteps` | main.js:487-493 | consecutive savings points differ by exactly one year's savings |
| `Roi.SavingsSeriesIncreasing` | main.js:487-493 | with positive annual savings the savings series strictly increases |
| `Roi.SavingsSeriesRatio` | main.js:487-493 | consecutive savings points stand in the ratio (i + 1.5) / (i + 0.5) |
| `Roi.NoGoalsSavings` | main.js:437-441 | with no goal checked the annual savings are exactly -300 per employee |
| `Roi.NoGoalsDisplays` | main.js:437-452 | with no goal checked and a positive size, the page shows an ROI of 0 and a payback of 36 |
| `Roi.NoStaff` | main.js:437-452 | with zero employees, costs, savings, payback and displayed savings are 0, and the ROI is NaN |
| `Roi.ProcessOnlyExample` | main.js:437-452 | 100 employees with only "process" give a cost of 300000, savings of 435000, an ROI of 500 and a payback of 9 |
| `Roi.AllGoalsExample` | main.js:437-452 | 100 employees with all four goals give a cost of 560000, savings of 2136000, an ROI of 500 and a payback of 4 |
| `Roi.UpdateRoi` | main.js:401-456 | one recalculation: the gain and multiplier are the checkbox sums, and the multiplier is at least 1; every reported figure and both series are the values of the formulas above for that size, gain and multiplier; the ROI is NaN exactly for zero employees and otherwise in [0, 500]; the payback is at most 36, and at least 1 for a positive size; the savings are a multiple of 1000; the savings series increases when savings are positive |
| `Solutions.Lists` | main.js:268-377 | each industry's lists cover exactly the four challenges with two solutions each |
| `Solutions.Catalogue` | main.js:268-377 | the table covers exactly the six industries |
| `Solutions.Recommend` | main.js:379-386 | the result is the first min(3, total) entries of the concatenated lists, so never more than 3 |
| `Solutions.GetSolutions` | main.js:379-386 | the loop returns the first min(3, total) entries of the lists of the given challenges, concatenated in challenge order |
| `Solutions.GatheredAppend` | main.js:380-384 | gathering two runs of challenges concatenates their results, in order |
| `Solutions.UnknownIndustry` | main.js:381 | an industry missing from the table yields no solutions |
| `Solutions.UnknownChallengesSkipped` | main.js:381-383 | challenges missing from the table are skipped |
| `Solutions.GatheredLength` | main.js:380-384 | with two entries per list, each known challenge contributes exactly two solutions |
| `Solutions.SolutionMapIndustries` | main.js:268-377 | the page's table has exactly the six industries |
| `Solutions.SolutionMapShape` | main.js:268-377 | every industry of the page's table has the four challenges with two solutions each |
| `Solutions.AllChallengesKnown` | main.js:381 | for an industry with well-formed lists, every one of the four challenges is found |
| `Solutions.RecommendCount` | main.js:379-386 | for an industry with well-formed lists and k challenges from the four, min(3, 2k) solutions are returned |
| `Solutions.PageRecommendCount` | main.js:267-387 | on the page's own table, a known industry with k challenges drawn from the four gets min(3, 2k) solutions |
| `Configurator.Without` | main.js:203 | filtering removes every occurrence of the challenge and keeps every other element |
| `Configurator.WithoutKeepsOrder` | main.js:203 | filtering keeps the relative order of the other challenges |
| `Configurator.WithoutNoDuplicates` | main.js:203 | filtering keeps a duplicate-free list duplicate-free |
| `Configurator.WithoutAbsent` | main.js:203 | filtering out a challenge that is not selected changes nothing |
| `Configurator.ToggleKeepsAgreement` | main.js:199-209 | toggling an option keeps the invariant: a flag is set iff its challenge is selected, and no challenge is selected twice |
| `Configurator.Configurator.constructor` | main.js:7-8 | the page starts with no industry, no challenge, no checked box, a disabled button and the prompt |
| `Configurator.Configurator.SelectIndustry` | main.js:177-187 | a card click highlights exactly that card, selects its industry, leaves the challenges alone, and re-establishes the invariant |
| `Configurator.Configurator.ToggleChallenge` | main.js:196-213 | an option click flips its flag; it filters the challenge out if it was checked and appends it if not; the industry is unchanged and the invariant holds again |
| `Configurator.Configurator.UpdateSolutionContent` | main.js:216-245 | the panel shows the prompt unless an industry and a challenge are selected, and otherwise the recommendations for them |
| `Configurator.Configurator.CheckFormCompletion` | main.js:247-255 | the button is enabled exactly when an industry and at least one challenge are selected |
| `Configurator.Configurator.ButtonMatchesSelection` | main.js:216-255 | in every valid state the button is enabled iff an industry is chosen and the list is non-empty, which is also when the panel shows recommendations |
| `Configurator.Configurator.PanelShowsUpToThree` | main.js:227 | with the four challenges as options and a well-formed industry, the panel shows min(3, 2k) solutions for k selected challenges |

## Left out

- Floating point: the arithmetic is exact over rationals. IEEE-754 rounding (for example
  1 + 0.5 + 0.3 + 0.4 + 0.6 is not exactly 2.8 in binary) is not modelled.
- `Roi.RoiRaw`: stated only for a cost multiplier of at least 1, which is all the goal loop
  produces. A multiplier of 0 would give a zero cost with nonzero savings; JavaScript's
  x/0 = ±Infinity and its signed zeros are not modelled.
- `Roi.DisplayedRoi`: stated only for a cost multiplier of at least 1, for the same reason
  (an infinite raw ROI would display as 500 or 0).
- `parseInt` of the slider strings: the company size is an integer parameter. The
  `currentEfficiency` slider is displayed only and never enters the formula, so it is not modelled.
- Text output: `textContent`, `innerHTML` templating, `toLocaleString`, and the ECharts option
  styling and `setOption`/`resize`. The model stops at the numbers and the solution lists they show.
- The CSS classes (`ring-2`, `bg-electric-cyan`, the hidden check icon, `opacity-50`) are
  modelled by the flags `active`, `checked` and `buttonEnabled`.
- The initial markup of the button and the panel is not part of this model. The constructor
  starts them consistent with an empty selection.
- `Configurator.Configurator.constructor`: requires the challenge options to carry distinct
  values, as the page's four do. With two checkboxes sharing a value, the source itself would
  put that value in the list twice.
- Property lookups that JavaScript resolves through the object prototype (an industry or
  challenge named `constructor`, say) are not modelled. The table is a plain map.
- The "Get strategy" button's `alert`, the contact form, the p5.js neural background, Matter.js
  particles, Typed.js, anime.js animations, scroll reveal, lazy image loading, smooth scrolling
  and the scroll-spy: these are third-party rendering or browser callbacks with no logic to state.

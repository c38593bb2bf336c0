# ROI estimation engine — a Dafny model

This project models the estimation engine of a public-safety ROI
calculator. From a set of agency inputs and a risk mode (Conservative,
Standard, Aggressive) it computes five annual "drag" amounts: turnover,
overtime, workers' comp, liability and performance. It also sizes a
wellness-room pilot, derives its cost, net benefit, payback period and
break-even day, builds a sensitivity table with one row per risk mode,
and names the primary cost driver. The quick calculator's rural headcount
estimate is modelled as well: staffing derived from the population
protected.

Every operation of the engine is a pure function in the source, and it is
a pure function here:

- `types.dfy` (module `Types`): the enumerations, the input record
  `CalculatorInputs` and the result records. Optional inputs are `Option`s.
  The "N/A" payback and break-even strings are `None`.
- `constants.dfy` (module `Constants`): the defaults, the three
  multiplier tables as total functions of the closed `RiskMode`, the
  demonstration inputs and the presets.
- `calculations.dfy` (module `Calculations`): `getDefaultLiability`,
  `calculatePilotStats`, the input fallbacks, the evaluator,
  `calculateScenario`, the pilot financials, `buildSensitivity`, the
  primary-driver fold and `calculateROI`.
- `properties.dfy` (module `RoiProperties`): lemmas that relate several
  evaluations to each other.
- `rural.dfy` (module `RuralStaffing`): the rural headcount derivation
  from `QuickCalc.tsx`.
- `scenarios.dfy` (module `Scenarios`): the unit-test expectations, the
  demonstration agency, the presets and the rural preset, each as a lemma.

Modelling decisions:

- JavaScript numbers are exact `real`s. `Math.round` is `Round(x) = ⌊x + 1/2⌋`
  (halves go up) and `Math.ceil` is `Ceil`.
- The falsy tests of the source (`x || d`, `x ? a : b`) are modelled as
  `x != 0`. An optional number counts only when present and nonzero
  (`Given`). The `> 0` tests are kept as `> 0`.
- `calculateScenario` spells out the formulas of `calculateROI` a second
  time. Its numbered steps are modelled as written, one function per step
  (`ScenarioPayroll`, `ScenarioTurnoverDrag`, `ScenarioOvertimeDrag`,
  `ScenarioCompDrag`, `ScenarioPerformanceDrag`). Each step is proved equal
  to the matching drag of the evaluator `Evaluate`, which models
  `calculateROI`'s own copy. The separations count uses the one rate,
  count and default chain, `EffectiveTurnoverCount`. The unused pilot-cost
  parameter is kept and never read.
- `CalculateRoi` requires `ValidInputs`: every input field the engine reads
  is non-negative. The record's type does not say this, and it is what keeps
  the return-percentage denominator `capex + opex` positive. `Evaluate` and
  the fallbacks have no precondition.
- Two behaviours of the code are easy to misread:
  - Primary-driver ties go to the LATER category in the order Turnover,
    Overtime, Liability, Workers Comp, Performance. The fold
    `reduce((a, b) => a[1] > b[1] ? a : b)` keeps the new entry whenever
    `a[1] > b[1]` fails, and that includes a tie.
  - A turnover rate of 0 counts as absent and falls through to the count,
    because the rate is tested for truthiness.

## Model

| member | source | states |
|---|---|---|
| `Constants.OvertimeSavings` | constants.ts:18 | each overtime-savings multiplier is a fraction strictly between 0 and 1 |
| `Constants.CompReduction` | constants.ts:19 | each workers'-comp multiplier is a fraction strictly between 0 and 1 |
| `Constants.ProductivityLoss` | constants.ts:20 | each productivity-loss multiplier is a fraction strictly between 0 and 1 |
| `Constants.MultipliersIncrease` | constants.ts:17-21 | all three tables strictly increase from Conservative to Standard to Aggressive |
| `Calculations.Round` | calculations.ts:105-107 | the result is the integer nearest to x, with halves rounded up, as `Math.round` does |
| `Calculations.Ceil` | calculations.ts:32 | the result is the least integer not below x |
| `Calculations.GetDefaultLiability` | calculations.ts:21-27 | 500 for every Rural profile and every non-Police agency; for Police, 8,000 in a Major City and 650 in a Suburb |
| `Calculations.CalculatePilotStats` | calculations.ts:30-39 | the room count is the least n ≥ 1 with 100·n ≥ headcount; capex is 50,000 per room and opex is 12,000 per room per year |
| `Calculations.Payroll` | calculations.ts:101-102 | headcount × the entered fully loaded cost, or headcount × 120,000 when that is zero; never negative for valid inputs |
| `Calculations.Salary` | calculations.ts:101 | the fully loaded cost, or 120,000 when it is zero |
| `Calculations.EffectiveTurnoverCount` | calculations.ts:105-107 | a nonzero rate gives round(headcount·rate/100); else a nonzero count is used; else round(headcount·10/100); never negative for valid inputs |
| `Calculations.ReplacementCost` | calculations.ts:108 | the recruit cost only if strictly above 20,000, otherwise 150,000; always above 20,000 |
| `Calculations.OvertimeBasis` | calculations.ts:112 | the entered overtime spend if positive, otherwise 12% of payroll |
| `Calculations.CompBasis` | calculations.ts:116 | the entered workers'-comp spend if positive, otherwise 3% of payroll |
| `Calculations.HasRealData` | calculations.ts:123 | true exactly when overtime or workers'-comp spend is positive; without it both spend figures are the payroll estimates, with it at least one is the entered figure |
| `Calculations.IncludePerformance` | calculations.ts:123-124 | an explicit toggle wins; unset, it is true exactly when no positive overtime or workers'-comp spend was entered |
| `Calculations.Drags.Total` | calculations.ts:127 | the total avoidable loss is the sum of the five drags, and, when no drag is negative, none exceeds it |
| `Calculations.Evaluate` | calculations.ts:99-127 | all five drags are non-negative for valid inputs |
| `Calculations.ScenarioPayroll` | calculations.ts:55-56 | calculateScenario's payroll equals the evaluator's payroll |
| `Calculations.ScenarioTurnoverDrag` | calculations.ts:58-64 | step 1 equals the separations count × the replacement cost that the evaluator uses |
| `Calculations.ScenarioOvertimeDrag` | calculations.ts:66-69 | step 2 equals the evaluator's overtime basis × the mode's overtime-savings multiplier |
| `Calculations.ScenarioCompDrag` | calculations.ts:71-74 | step 3 equals the evaluator's workers'-comp basis × the mode's comp-reduction multiplier |
| `Calculations.ScenarioPerformanceDrag` | calculations.ts:79-82 | step 5 equals payroll × the mode's productivity loss when performance drag is included, and 0 otherwise |
| `Calculations.CalculateScenario` | calculations.ts:42-85 | the scenario total equals the sum of the evaluator's five drags for the same mode, and for valid inputs it is never below the liability drag |
| `Calculations.ResolvePilot` | calculations.ts:132-138 | each nonzero override replaces its computed figure independently of the other; a capex override gives max(1, round(capex/50,000)) rooms; capex and opex are positive for valid inputs |
| `Calculations.PaybackMonths` | calculations.ts:146-151 | N/A exactly when net benefit ≤ 0; otherwise that many months of net benefit add up to exactly the capex, and the figure is non-negative when the capex is |
| `Calculations.BreakEvenDays` | calculations.ts:154-159 | N/A exactly when net benefit ≤ 0; otherwise the first whole day by which cumulative daily net benefit covers the capex |
| `Calculations.BuildSensitivity` | calculations.ts:162-176 | for a nonzero total pilot cost, the row carries its own mode and that mode's total loss; net benefit subtracts the given opex; payback follows the same rule as the headline figure; roi × (capex + opex) = net × 100 |
| `Calculations.Category.Name` | calculations.ts:185-191 | each category is named by the cost-table key at its own position, and no other key equals that name |
| `Calculations.ReduceLargest` | calculations.ts:192 | the fold returns an index of maximal cost, and every later index holds a strictly smaller cost |
| `Calculations.PrimaryDriver` | calculations.ts:185-192 | the driver's drag is maximal among the five, and every later category's drag is strictly smaller, so ties go to the later category |
| `Calculations.CalculateRoi` | calculations.ts:87-209 | for valid inputs: the drags come from one evaluator; the total is their sum; pilot cost = capex + opex; net = total − opex; payback and break-even are N/A exactly when net ≤ 0; one row per mode, all on the active pilot's capex and opex; the active row's total, net and payback equal the headline figures; the driver is named |
| `RoiProperties.ScenarioIgnoresPilotCosts` | calculations.ts:42 | the scenario total is the same for any two pilot cost bases |
| `RoiProperties.DefaultPilotIsOneRoom` | calculations.ts:30-39 | room sizing gives exactly the default 50,000 capex and 12,000 opex, on one room, if and only if the headcount is at most 100 |
| `RoiProperties.DragsMonotoneInMode` | calculations.ts:104-127 | turnover and liability drag do not depend on the mode; for valid inputs, overtime, workers' comp, performance and the total never fall as the mode rises |
| `RoiProperties.DragsStrictlyIncreaseInMode` | calculations.ts:111-125 | from a lower mode to a higher one, each scaled drag strictly rises whenever its basis is positive |
| `RoiProperties.PerformanceDragPolicy` | calculations.ts:122-125 | an explicit toggle decides; unset, positive overtime or workers'-comp spend makes performance drag 0; otherwise it is payroll × the mode's productivity loss |
| `RoiProperties.EstimationFallback` | calculations.ts:101-117 | payroll is headcount × salary base; with no spend entered, overtime drag is payroll·0.12·multiplier and workers'-comp drag is payroll·0.03·multiplier; entered spend is scaled directly |
| `RoiProperties.SensitivityRowsOrdered` | calculations.ts:162-182 | for valid inputs and one shared pilot cost basis with a positive total cost, total loss, net benefit and return never fall from a lower mode to a higher one |
| `RoiProperties.EmptyAgencyHasNoPayback` | calculations.ts:140-159 | for valid inputs with no staff and no spend entered, and no turnover count entered (or a rate given), total loss is 0, net benefit is negative, and payback and break-even are both N/A |
| `RoiProperties.BreakEvenIsPaybackInDays` | calculations.ts:146-159 | with a positive net benefit, the break-even day is the payback period converted to days and rounded up |
| `RoiProperties.LargestDragIsPrimaryDriver` | calculations.ts:185-192 | a category whose drag is strictly larger than all the others is the primary driver |
| `RoiProperties.TieGoesToLaterCategory` | calculations.ts:192 | when Turnover and Performance tie for the largest drag, the driver is "Performance" |
| `RuralStaffing.RuralBreakdown` | QuickCalc.tsx:59-67 | EMS staffing is always within [8, 18]; for a non-negative population, combined fire/EMS lies between max(fire, ems) and fire + ems |
| `RuralStaffing.RuralHeadcount` | QuickCalc.tsx:71-81 | the Police, Fire and EMS subtypes take exactly that estimate; Mixed adds police to the combined or the separate fire and EMS figures, depending on whether fire runs EMS |
| `RuralStaffing.CombinedServiceNeverLarger` | QuickCalc.tsx:67-81 | for a non-negative population, a mixed department whose fire service runs EMS never counts more staff than one with separate services |
| `RuralStaffing.BreakdownMonotone` | QuickCalc.tsx:59-67 | for non-negative populations, police, fire, EMS and combined estimates never fall as the population grows |
| `RuralStaffing.RuralHeadcountMonotone` | QuickCalc.tsx:59-81 | for non-negative populations, the derived headcount never falls as the population grows, for every subtype |
| `RuralStaffing.ApplyRuralDerivation` | QuickCalc.tsx:55-91 | outside the Rural profile the inputs are unchanged; otherwise only headcount, population and subtype are replaced, and every other field is kept |
| `Scenarios.UnitTestExpectations` | calculations.test.ts:22-41 | turnover drag is 300,000 when the 10,000 recruit cost is ignored; liability drag is 50,000; overtime drag follows the Conservative and Aggressive multipliers |
| `Scenarios.EstimatedSpendExpectations` | calculations.test.ts:43-55 | with no spend entered, payroll is 10,000,000, overtime drag is 120,000 and workers'-comp drag is 18,000 in Standard mode |
| `Scenarios.TurnoverRateExpectation` | calculations.ts:105-109 | a 10% rate over 100 staff at 150,000 gives 1,500,000 of turnover drag |
| `Scenarios.DemoScenario` | constants.ts:23-53 | demo inputs: the 45,000 capex override gives 1 room, performance drag is 0, turnover is 34 × 150,000, total 5,657,700, net 5,645,700, break-even on day 3, driver Turnover |
| `Scenarios.RecruitCostDefaults` | constants.ts:3-15 | the 150,000 fallback clears the 20,000 guard; the 15,000 default and the demo's 18,000 recruit costs do not, so both fall back |
| `Scenarios.PresetLiabilityMatchesDefault` | constants.ts:55-88 | each preset's liability per head is the default for its profile and agency |
| `Scenarios.RuralPresetHeadcount` | constants.ts:76-87 | the rural preset's town of 5,000 gives 16 police, 16 fire and 11 EMS: 38 staff combined, 43 separate |

## Left out

- `formatCurrency` is a wrapper over the host's `Intl.NumberFormat` locale formatter, so it is not modelled.
- The payback and break-even strings are not modelled (`toFixed(1)` and `toString()`). The model keeps their numeric values, and `None` stands for "N/A".
- IEEE-754 double rounding is not modelled. All arithmetic is exact. The unit tests' `toBe` equalities hold in exact arithmetic.
- `CalculateRoi` is stated only for inputs that satisfy `ValidInputs`. With a negative pilot override, the source's return percentage can divide by zero and show Infinity or NaN, which the model does not represent.
- Not modelled: the React state around the rural derivation, which includes `setInputs`, `setBreakdown`, the localStorage write, the slider sync on load, the preset application and the manual headcount edits. These depend on React's update timing.
- The agency `profile` record (contact details read only by the reports) is not part of the input record. The other fields the evaluator never reads (sick hours, vacancy days and the like) are carried unchanged.
- The PDF and HTML report rendering, the page flow, persistence and the lead webhook are outside the engine.
- Idempotence of the evaluation is not stated. Every Dafny function is deterministic, so it holds by construction.

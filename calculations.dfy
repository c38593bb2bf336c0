/** The ROI estimation engine: the default liability table, pilot sizing,
    the scenario evaluator (five drag categories), the pilot financials,
    the sensitivity table across the three risk modes and the choice of
    the primary cost driver. Every operation is a pure function. */
module Calculations {
  import opened Types
  import opened Constants

  // ---------------------------------------------------------------------
  // Rounding as JavaScript does it

  /** `Math.round`: the nearest integer, halves rounded up (towards +inf). */
  function Round(x: real): (r: int)
    ensures x - 0.5 < r as real <= x + 0.5
  {
    (x + 0.5).Floor
  }

  /** `Math.ceil`: the least integer not below `x`. */
  function Ceil(x: real): (r: int)
    ensures x <= r as real < x + 1.0
  {
    -((-x).Floor)
  }

  lemma RoundMonotone(x: real, y: real)
    requires x <= y
    ensures Round(x) <= Round(y)
  {
  }

  function Max(a: int, b: int): int { if a >= b then a else b }

  function Min(a: int, b: int): int { if a <= b then a else b }

  /** The truthiness of an optional number: present and nonzero. */
  predicate Given(x: Option<real>) {
    x.Some? && x.value != 0.0
  }

  // ---------------------------------------------------------------------
  // getDefaultLiability

  /** The liability cost per head suggested for a profile and agency type. */
  function GetDefaultLiability(profile: LocationProfile, agency: AgencyType): (r: real)
    ensures profile == Rural || agency != Police ==> r == 500.0
    ensures profile == MajorCity && agency == Police ==> r == 8000.0
    ensures profile == Suburb && agency == Police ==> r == 650.0
  {
    if profile == Rural then 500.0
    else if agency == Police then (if profile == MajorCity then 8000.0 else 650.0)
    else 500.0
  }

  // ---------------------------------------------------------------------
  // calculatePilotStats

  const PeoplePerRoom: real := 100.0
  const RoomSetupCost: real := 50000.0
  const RoomMonthlyService: real := 1000.0

  datatype PilotStats = PilotStats(numRooms: int, pilotCapex: real, pilotOpexAnnual: real)

  /** One room per 100 people, rounded up, at least one; each room costs
      50,000 to set up and 1,000 a month to run. */
  function CalculatePilotStats(headcount: real): (s: PilotStats)
    ensures s.numRooms >= 1
    ensures PeoplePerRoom * s.numRooms as real >= headcount
    ensures s.numRooms == 1 || PeoplePerRoom * (s.numRooms - 1) as real < headcount
    ensures s.pilotCapex == 50000.0 * s.numRooms as real
    ensures s.pilotOpexAnnual == 12000.0 * s.numRooms as real
  {
    var numRooms := Max(1, Ceil(headcount / PeoplePerRoom));
    PilotStats(numRooms, numRooms as real * RoomSetupCost, numRooms as real * RoomMonthlyService * 12.0)
  }

  // ---------------------------------------------------------------------
  // Input normalisation: the fallback chains of calculateROI

  /** Below or at this value an entered recruit cost is ignored. */
  const RecruitCostFloor: real := 20000.0

  /** Salary base: the fully loaded cost unless it is zero. */
  function Salary(inputs: CalculatorInputs): (r: real)
    ensures inputs.avgFullyLoadedCost != 0.0 ==> r == inputs.avgFullyLoadedCost
    ensures inputs.avgFullyLoadedCost == 0.0 ==> r == DefaultAvgFullyLoaded
  {
    if inputs.avgFullyLoadedCost != 0.0 then inputs.avgFullyLoadedCost else DefaultAvgFullyLoaded
  }

  /** Annual payroll: headcount times the salary base, so the default
      salary stands in when no fully loaded cost is entered. */
  function Payroll(inputs: CalculatorInputs): (r: real)
    ensures inputs.avgFullyLoadedCost != 0.0 ==> r == inputs.headcount * inputs.avgFullyLoadedCost
    ensures inputs.avgFullyLoadedCost == 0.0 ==> r == inputs.headcount * DefaultAvgFullyLoaded
    ensures ValidInputs(inputs) ==> r >= 0.0
  {
    ProductNonNegative(inputs.headcount, Salary(inputs));
    inputs.headcount * Salary(inputs)
  }

  /** Separations per year: a nonzero rate wins over a nonzero count, which
      wins over the default rate. */
  function EffectiveTurnoverCount(inputs: CalculatorInputs): (r: real)
    ensures Given(inputs.turnoverRatePct) ==>
      r == Round(inputs.headcount * (inputs.turnoverRatePct.value / 100.0)) as real
    ensures !Given(inputs.turnoverRatePct) && inputs.annualTurnoverCount != 0.0 ==>
      r == inputs.annualTurnoverCount
    ensures !Given(inputs.turnoverRatePct) && inputs.annualTurnoverCount == 0.0 ==>
      r == Round(inputs.headcount * (DefaultTurnoverRate / 100.0)) as real
    ensures ValidInputs(inputs) ==> r >= 0.0
  {
    if Given(inputs.turnoverRatePct) then
      Round(inputs.headcount * (inputs.turnoverRatePct.value / 100.0)) as real
    else if inputs.annualTurnoverCount != 0.0 then
      inputs.annualTurnoverCount
    else
      Round(inputs.headcount * (DefaultTurnoverRate / 100.0)) as real
  }

  /** Cost of replacing one separation: the entered recruit cost only when
      it is strictly above the floor. */
  function ReplacementCost(inputs: CalculatorInputs): (r: real)
    ensures r > RecruitCostFloor
    ensures inputs.recruitCost > RecruitCostFloor ==> r == inputs.recruitCost
    ensures inputs.recruitCost <= RecruitCostFloor ==> r == DefaultReplacementCost
  {
    // `recruitCost && recruitCost > 20000`: the truthiness test is implied
    if inputs.recruitCost > RecruitCostFloor then inputs.recruitCost else DefaultReplacementCost
  }

  /** Overtime spend: the entered figure if positive, else 12% of payroll. */
  function OvertimeBasis(inputs: CalculatorInputs): (r: real)
    ensures inputs.annualOvertimeSpend > 0.0 ==> r == inputs.annualOvertimeSpend
    ensures inputs.annualOvertimeSpend <= 0.0 ==> r == Payroll(inputs) * 0.12
  {
    if inputs.annualOvertimeSpend > 0.0 then inputs.annualOvertimeSpend else Payroll(inputs) * 0.12
  }

  /** Workers' comp spend: the entered figure if positive, else 3% of payroll. */
  function CompBasis(inputs: CalculatorInputs): (r: real)
    ensures inputs.annualWorkersComp > 0.0 ==> r == inputs.annualWorkersComp
    ensures inputs.annualWorkersComp <= 0.0 ==> r == Payroll(inputs) * 0.03
  {
    if inputs.annualWorkersComp > 0.0 then inputs.annualWorkersComp else Payroll(inputs) * 0.03
  }

  /** Real spend data was entered for overtime or workers' comp: without
      it both spend figures are payroll estimates, with it at least one of
      them is the entered figure. */
  function HasRealData(inputs: CalculatorInputs): (b: bool)
    ensures b <==> inputs.annualOvertimeSpend > 0.0 || inputs.annualWorkersComp > 0.0
    ensures !b ==> OvertimeBasis(inputs) == Payroll(inputs) * 0.12 && CompBasis(inputs) == Payroll(inputs) * 0.03
    ensures b ==> OvertimeBasis(inputs) == inputs.annualOvertimeSpend || CompBasis(inputs) == inputs.annualWorkersComp
  {
    inputs.annualOvertimeSpend > 0.0 || inputs.annualWorkersComp > 0.0
  }

  /** An explicit toggle wins; unset, performance drag is counted only
      when no real spend data could already reflect it. */
  function IncludePerformance(inputs: CalculatorInputs): (b: bool)
    ensures inputs.includePerformanceDrag.Some? ==> b == inputs.includePerformanceDrag.value
    ensures inputs.includePerformanceDrag.None? ==> (b <==> !HasRealData(inputs))
  {
    match inputs.includePerformanceDrag
    case Some(flag) => flag
    case None => !HasRealData(inputs)
  }

  // ---------------------------------------------------------------------
  // The scenario evaluator

  /** The five avoidable-loss categories of one scenario. */
  datatype Drags = Drags(turnover: real, overtime: real, workersComp: real, liability: real, performance: real)
  {
    /** The total avoidable loss: the sum of the five drags, which is
        never below any one of them when none is negative. */
    function Total(): (r: real)
      ensures r == turnover + overtime + workersComp + liability + performance
      ensures turnover >= 0.0 && overtime >= 0.0 && workersComp >= 0.0 && liability >= 0.0 && performance >= 0.0 ==>
        && r >= turnover && r >= overtime && r >= workersComp && r >= liability && r >= performance
    {
      turnover + overtime + workersComp + liability + performance
    }
  }

  /** The drag amounts for one risk mode. */
  function Evaluate(inputs: CalculatorInputs, mode: RiskMode): (d: Drags)
    ensures ValidInputs(inputs) ==>
      && d.turnover >= 0.0 && d.overtime >= 0.0 && d.workersComp >= 0.0
      && d.liability >= 0.0 && d.performance >= 0.0
  {
    var payroll := Payroll(inputs);
    ProductNonNegative(inputs.headcount, Salary(inputs));
    ProductNonNegative(EffectiveTurnoverCount(inputs), ReplacementCost(inputs));
    ProductNonNegative(OvertimeBasis(inputs), OvertimeSavings(mode));
    ProductNonNegative(CompBasis(inputs), CompReduction(mode));
    ProductNonNegative(inputs.headcount, inputs.liabilityCostPerHead);
    ProductNonNegative(payroll, ProductivityLoss(mode));
    Drags(
      turnover := EffectiveTurnoverCount(inputs) * ReplacementCost(inputs),
      overtime := OvertimeBasis(inputs) * OvertimeSavings(mode),
      workersComp := CompBasis(inputs) * CompReduction(mode),
      liability := inputs.headcount * inputs.liabilityCostPerHead,
      performance := if IncludePerformance(inputs) then payroll * ProductivityLoss(mode) else 0.0)
  }

  lemma ProductNonNegative(a: real, b: real)
    ensures a >= 0.0 && b >= 0.0 ==> a * b >= 0.0
  {
  }

  datatype PilotCostBasis = PilotCostBasis(capex: real, opex: real)

  // calculateScenario spells the evaluator's formulas out a second time.
  // Its numbered steps are written out below as the source has them, and
  // each is proved to agree with the evaluator.

  /** calculateScenario's salary base and payroll. */
  function ScenarioPayroll(inputs: CalculatorInputs): (payroll: real)
    ensures payroll == Payroll(inputs)
  {
    var salary := if inputs.avgFullyLoadedCost != 0.0 then inputs.avgFullyLoadedCost else DefaultAvgFullyLoaded;
    inputs.headcount * salary
  }

  /** calculateScenario's step 1: turnover. */
  function ScenarioTurnoverDrag(inputs: CalculatorInputs): (turnoverDrag: real)
    ensures turnoverDrag == EffectiveTurnoverCount(inputs) * ReplacementCost(inputs)
  {
    // the separations come from the same rate, count and default chain
    var effectiveCount := EffectiveTurnoverCount(inputs);
    var replacementCost := if inputs.recruitCost > 20000.0 then inputs.recruitCost else DefaultReplacementCost;
    effectiveCount * replacementCost
  }

  /** calculateScenario's step 2: overtime. */
  function ScenarioOvertimeDrag(inputs: CalculatorInputs, mode: RiskMode): (overtimeDrag: real)
    ensures overtimeDrag == OvertimeBasis(inputs) * OvertimeSavings(mode)
  {
    var estimatedOtSpend := ScenarioPayroll(inputs) * 0.12;
    var otSpend := if inputs.annualOvertimeSpend > 0.0 then inputs.annualOvertimeSpend else estimatedOtSpend;
    otSpend * OvertimeSavings(mode)
  }

  /** calculateScenario's step 3: workers' comp. */
  function ScenarioCompDrag(inputs: CalculatorInputs, mode: RiskMode): (workersCompDrag: real)
    ensures workersCompDrag == CompBasis(inputs) * CompReduction(mode)
  {
    var estimatedWcSpend := ScenarioPayroll(inputs) * 0.03;
    var compSpend := if inputs.annualWorkersComp > 0.0 then inputs.annualWorkersComp else estimatedWcSpend;
    compSpend * CompReduction(mode)
  }

  /** calculateScenario's step 5: performance, with the double-count guard. */
  function ScenarioPerformanceDrag(inputs: CalculatorInputs, mode: RiskMode): (performanceDrag: real)
    ensures performanceDrag == if IncludePerformance(inputs) then Payroll(inputs) * ProductivityLoss(mode) else 0.0
  {
    var hasRealData := inputs.annualOvertimeSpend > 0.0 || inputs.annualWorkersComp > 0.0;
    var shouldIncludePerf :=
      match inputs.includePerformanceDrag
      case Some(flag) => flag
      case None => !hasRealData;
    if shouldIncludePerf then ScenarioPayroll(inputs) * ProductivityLoss(mode) else 0.0
  }

  /** calculateScenario: the total loss of one mode, the sum of its five
      steps (step 4, liability, is headcount times the cost per head). The
      pilot costs it is handed are never read. The total is the sum of the
      evaluator's five drags for the same mode. */
  function CalculateScenario(inputs: CalculatorInputs, mode: RiskMode, pilotCosts: PilotCostBasis): (total: real)
    ensures var d := Evaluate(inputs, mode);
      total == d.turnover + d.overtime + d.workersComp + d.liability + d.performance
    ensures ValidInputs(inputs) ==> total >= inputs.headcount * inputs.liabilityCostPerHead
  {
    var turnoverDrag := ScenarioTurnoverDrag(inputs);
    var overtimeDrag := ScenarioOvertimeDrag(inputs, mode);
    var workersCompDrag := ScenarioCompDrag(inputs, mode);
    var liabilityDrag := inputs.headcount * inputs.liabilityCostPerHead;
    var performanceDrag := ScenarioPerformanceDrag(inputs, mode);
    turnoverDrag + overtimeDrag + workersCompDrag + liabilityDrag + performanceDrag
  }

  // ---------------------------------------------------------------------
  // Pilot financials

  /** The pilot actually priced: each nonzero override replaces the
      computed figure on its own; with a capex override the room count is
      read back from it. */
  function ResolvePilot(inputs: CalculatorInputs): (p: PilotStats)
    ensures Given(inputs.pilotCapex) ==>
      && p.pilotCapex == inputs.pilotCapex.value
      && p.numRooms == Max(1, Round(inputs.pilotCapex.value / RoomSetupCost))
    ensures !Given(inputs.pilotCapex) ==>
      && p.pilotCapex == CalculatePilotStats(inputs.headcount).pilotCapex
      && p.numRooms == CalculatePilotStats(inputs.headcount).numRooms
    ensures Given(inputs.pilotOpexAnnual) ==> p.pilotOpexAnnual == inputs.pilotOpexAnnual.value
    ensures !Given(inputs.pilotOpexAnnual) ==>
      p.pilotOpexAnnual == CalculatePilotStats(inputs.headcount).pilotOpexAnnual
    ensures p.numRooms >= 1
    ensures ValidInputs(inputs) ==> p.pilotCapex > 0.0 && p.pilotOpexAnnual > 0.0
  {
    var dynamicStats := CalculatePilotStats(inputs.headcount);
    var capex := if Given(inputs.pilotCapex) then inputs.pilotCapex.value else dynamicStats.pilotCapex;
    var opex := if Given(inputs.pilotOpexAnnual) then inputs.pilotOpexAnnual.value else dynamicStats.pilotOpexAnnual;
    var numRooms :=
      if Given(inputs.pilotCapex) then Max(1, Round(inputs.pilotCapex.value / RoomSetupCost))
      else dynamicStats.numRooms;
    PilotStats(numRooms, capex, opex)
  }

  /** Months of net benefit needed to recover the capex; `None` ("N/A")
      exactly when there is no positive net benefit. */
  function PaybackMonths(capex: real, netBenefit: real): (r: Option<real>)
    ensures r.None? <==> netBenefit <= 0.0
    ensures r.Some? ==> r.value * (netBenefit / 12.0) == capex
    ensures r.Some? && capex >= 0.0 ==> r.value >= 0.0
  {
    if netBenefit > 0.0 then Some(capex / (netBenefit / 12.0)) else None
  }

  /** The first whole day by which cumulative net benefit covers the capex;
      `None` ("N/A") exactly when there is no positive net benefit. */
  function BreakEvenDays(capex: real, netBenefit: real): (r: Option<int>)
    ensures r.None? <==> netBenefit <= 0.0
    ensures r.Some? ==> r.value as real * (netBenefit / 365.0) >= capex
    ensures r.Some? ==> (r.value - 1) as real * (netBenefit / 365.0) < capex
    ensures r.Some? && capex >= 0.0 ==> r.value >= 0
  {
    if netBenefit > 0.0 then
      var dailyBenefit := netBenefit / 365.0;
      var days := capex / dailyBenefit;
      var d := Ceil(days);
      assert days * dailyBenefit == capex;
      MulMonotone(days, d as real, dailyBenefit);
      assert (d - 1) as real < days;
      MulMonotone((d - 1) as real, days, dailyBenefit);
      assert (d - 1) as real * dailyBenefit < capex;
      assert (d - 1) as real * (netBenefit / 365.0) < capex;
      Some(d)
    else None
  }

  lemma MulMonotone(a: real, b: real, c: real)
    requires a <= b && c > 0.0
    ensures a * c <= b * c
    ensures a < b ==> a * c < b * c
  {
  }

  // ---------------------------------------------------------------------
  // Sensitivity table and primary driver

  /** One sensitivity row: mode `m` evaluated against the given pilot costs. */
  function BuildSensitivity(inputs: CalculatorInputs, m: RiskMode, capex: real, opex: real): (row: SensitivityResult)
    requires capex + opex != 0.0
    ensures row.mode == m
    ensures row.totalAnnualLoss == Evaluate(inputs, m).Total()
    ensures row.netBenefit == row.totalAnnualLoss - opex
    ensures row.paybackMonths == PaybackMonths(capex, row.netBenefit)
    ensures row.roiMultiplier * (capex + opex) == row.netBenefit * 100.0
  {
    var total := CalculateScenario(inputs, m, PilotCostBasis(capex, opex));
    var net := total - opex;
    var pb := if net > 0.0 then Some(capex / (net / 12.0)) else None;
    var roi := (net / (capex + opex)) * 100.0;
    SensitivityResult(m, total, net, pb, roi)
  }

  /** The cost categories, in the order the source lists them. */
  datatype Category = Turnover | Overtime | Liability | WorkersComp | Performance
  {
    /** The key the category has in the cost table; each category has its
        own key, listed at its own position. */
    function Name(): (r: string)
      ensures r == DriverKeys[Position()]
      ensures forall k :: 0 <= k < |DriverKeys| && k != Position() ==> DriverKeys[k] != r
    {
      match this
      case Turnover => "Turnover"
      case Overtime => "Overtime"
      case Liability => "Liability"
      case WorkersComp => "Workers Comp"
      case Performance => "Performance"
    }

    function Position(): nat {
      match this
      case Turnover => 0
      case Overtime => 1
      case Liability => 2
      case WorkersComp => 3
      case Performance => 4
    }
  }

  function DragOf(d: Drags, c: Category): real {
    match c
    case Turnover => d.turnover
    case Overtime => d.overtime
    case Liability => d.liability
    case WorkersComp => d.workersComp
    case Performance => d.performance
  }

  /** The keys of the cost table, in the order they are listed. */
  const DriverKeys: seq<string> := ["Turnover", "Overtime", "Liability", "Workers Comp", "Performance"]

  const CategoryOrder: seq<Category> := [Turnover, Overtime, Liability, WorkersComp, Performance]

  /** The fold `reduce((a, b) => a[1] > b[1] ? a : b)` from index `i` on,
      `best` being the entry kept so far: the result is the LAST index
      holding the maximum, since a tie replaces the kept entry. */
  function ReduceLargest(costs: seq<real>, best: nat, i: nat): (k: nat)
    requires best < i <= |costs|
    requires forall j :: 0 <= j < i ==> costs[j] <= costs[best]
    requires forall j :: best < j < i ==> costs[j] < costs[best]
    decreases |costs| - i
    ensures k < |costs|
    ensures forall j :: 0 <= j < |costs| ==> costs[j] <= costs[k]
    ensures forall j :: k < j < |costs| ==> costs[j] < costs[k]
  {
    if i == |costs| then best
    else ReduceLargest(costs, if costs[best] > costs[i] then best else i, i + 1)
  }

  /** The largest drag category; ties go to the later category. */
  function PrimaryDriver(d: Drags): (c: Category)
    ensures forall k: Category :: DragOf(d, k) <= DragOf(d, c)
    ensures forall k: Category :: k.Position() > c.Position() ==> DragOf(d, k) < DragOf(d, c)
  {
    var costs := [d.turnover, d.overtime, d.liability, d.workersComp, d.performance];
    var k := ReduceLargest(costs, 0, 1);
    assert forall c: Category :: CategoryOrder[c.Position()] == c && costs[c.Position()] == DragOf(d, c);
    CategoryOrder[k]
  }

  // ---------------------------------------------------------------------
  // calculateROI

  /** The full evaluation for the active mode. */
  function CalculateRoi(inputs: CalculatorInputs, activeMode: RiskMode): (r: CalculationResult)
    requires ValidInputs(inputs)
    ensures Drags(r.turnoverDrag, r.overtimeDrag, r.workersCompDrag, r.liabilityDrag, r.performanceDrag)
            == Evaluate(inputs, activeMode)
    ensures r.totalAvoidableLoss
            == r.turnoverDrag + r.overtimeDrag + r.workersCompDrag + r.liabilityDrag + r.performanceDrag
    ensures var p := ResolvePilot(inputs);
      && r.numRooms == p.numRooms
      && r.pilotCost == p.pilotCapex + p.pilotOpexAnnual
      && r.netBenefit == r.totalAvoidableLoss - p.pilotOpexAnnual
      && r.paybackMonths == PaybackMonths(p.pilotCapex, r.netBenefit)
      && r.breakEvenDays == BreakEvenDays(p.pilotCapex, r.netBenefit)
      && (forall m :: r.sensitivity.Row(m) == BuildSensitivity(inputs, m, p.pilotCapex, p.pilotOpexAnnual))
    ensures r.paybackMonths.None? <==> r.netBenefit <= 0.0
    ensures r.breakEvenDays.None? <==> r.netBenefit <= 0.0
    ensures forall m :: r.sensitivity.Row(m).mode == m
    ensures r.sensitivity.Row(activeMode).totalAnnualLoss == r.totalAvoidableLoss
    ensures r.sensitivity.Row(activeMode).netBenefit == r.netBenefit
    ensures r.sensitivity.Row(activeMode).paybackMonths == r.paybackMonths
    ensures r.primaryDriver == PrimaryDriver(Evaluate(inputs, activeMode)).Name()
  {
    var d := Evaluate(inputs, activeMode);
    var totalAvoidableLoss := d.turnover + d.overtime + d.workersComp + d.liability + d.performance;
    var p := ResolvePilot(inputs);
    var netBenefit := totalAvoidableLoss - p.pilotOpexAnnual;
    var sensitivity := Sensitivity(
      BuildSensitivity(inputs, Conservative, p.pilotCapex, p.pilotOpexAnnual),
      BuildSensitivity(inputs, Standard, p.pilotCapex, p.pilotOpexAnnual),
      BuildSensitivity(inputs, Aggressive, p.pilotCapex, p.pilotOpexAnnual));
    CalculationResult(
      turnoverDrag := d.turnover,
      overtimeDrag := d.overtime,
      workersCompDrag := d.workersComp,
      liabilityDrag := d.liability,
      performanceDrag := d.performance,
      totalAvoidableLoss := totalAvoidableLoss,
      pilotCost := p.pilotCapex + p.pilotOpexAnnual,
      netBenefit := netBenefit,
      paybackMonths := PaybackMonths(p.pilotCapex, netBenefit),
      breakEvenDays := BreakEvenDays(p.pilotCapex, netBenefit),
      numRooms := p.numRooms,
      sensitivity := sensitivity,
      primaryDriver := PrimaryDriver(d).Name())
  }
}

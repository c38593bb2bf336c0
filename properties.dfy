/** Properties of the evaluator that relate several evaluations: how the
    drags move with the risk mode, the double-count guard on performance
    drag, the ordering of the sensitivity table and the primary driver. */
module RoiProperties {
  import opened Types
  import opened Constants
  import opened Calculations

  /** Turnover and liability drag do not depend on the mode; overtime,
      workers' comp and performance drag (and so the total) never fall
      from a lower mode to a higher one. */
  lemma DragsMonotoneInMode(inputs: CalculatorInputs, m1: RiskMode, m2: RiskMode)
    requires ValidInputs(inputs)
    requires m1.Rank() <= m2.Rank()
    ensures Evaluate(inputs, m1).turnover == Evaluate(inputs, m2).turnover
    ensures Evaluate(inputs, m1).liability == Evaluate(inputs, m2).liability
    ensures Evaluate(inputs, m1).overtime <= Evaluate(inputs, m2).overtime
    ensures Evaluate(inputs, m1).workersComp <= Evaluate(inputs, m2).workersComp
    ensures Evaluate(inputs, m1).performance <= Evaluate(inputs, m2).performance
    ensures Evaluate(inputs, m1).Total() <= Evaluate(inputs, m2).Total()
  {
    if m1 != m2 {
      MultipliersIncrease(m1, m2);
      ScaleMonotone(OvertimeBasis(inputs), OvertimeSavings(m1), OvertimeSavings(m2));
      ScaleMonotone(CompBasis(inputs), CompReduction(m1), CompReduction(m2));
      ScaleMonotone(Payroll(inputs), ProductivityLoss(m1), ProductivityLoss(m2));
    }
  }

  /** Between two different modes, each scaled drag strictly grows
      whenever its basis is positive. */
  lemma DragsStrictlyIncreaseInMode(inputs: CalculatorInputs, m1: RiskMode, m2: RiskMode)
    requires m1.Rank() < m2.Rank()
    ensures OvertimeBasis(inputs) > 0.0 ==> Evaluate(inputs, m1).overtime < Evaluate(inputs, m2).overtime
    ensures CompBasis(inputs) > 0.0 ==> Evaluate(inputs, m1).workersComp < Evaluate(inputs, m2).workersComp
    ensures IncludePerformance(inputs) && Payroll(inputs) > 0.0 ==>
      Evaluate(inputs, m1).performance < Evaluate(inputs, m2).performance
  {
    MultipliersIncrease(m1, m2);
    StrictScale(OvertimeBasis(inputs), OvertimeSavings(m1), OvertimeSavings(m2));
    StrictScale(CompBasis(inputs), CompReduction(m1), CompReduction(m2));
    StrictScale(Payroll(inputs), ProductivityLoss(m1), ProductivityLoss(m2));
  }

  lemma ScaleMonotone(x: real, a: real, b: real)
    requires x >= 0.0 && a <= b
    ensures x * a <= x * b
  {
  }

  lemma StrictScale(x: real, a: real, b: real)
    requires a < b
    ensures x > 0.0 ==> x * a < x * b
  {
  }

  /** The performance-drag policy: an explicit toggle always wins; unset,
      real overtime or workers' comp spend suppresses the estimate, which
      would double count it; otherwise payroll times the mode's
      productivity loss is counted. */
  lemma PerformanceDragPolicy(inputs: CalculatorInputs, mode: RiskMode)
    ensures inputs.includePerformanceDrag == Some(false) ==> Evaluate(inputs, mode).performance == 0.0
    ensures inputs.includePerformanceDrag == Some(true) ==>
      Evaluate(inputs, mode).performance == Payroll(inputs) * ProductivityLoss(mode)
    ensures inputs.includePerformanceDrag.None? && (inputs.annualOvertimeSpend > 0.0 || inputs.annualWorkersComp > 0.0) ==>
      Evaluate(inputs, mode).performance == 0.0
    ensures inputs.includePerformanceDrag.None? && inputs.annualOvertimeSpend <= 0.0 && inputs.annualWorkersComp <= 0.0 ==>
      Evaluate(inputs, mode).performance == Payroll(inputs) * ProductivityLoss(mode)
  {
  }

  /** With no spend entered, overtime and workers' comp drag are 12% and 3%
      of payroll scaled by the mode's multiplier; the payroll uses the
      default salary when none is entered. */
  lemma EstimationFallback(inputs: CalculatorInputs, mode: RiskMode)
    ensures Payroll(inputs) == inputs.headcount *
      (if inputs.avgFullyLoadedCost != 0.0 then inputs.avgFullyLoadedCost else DefaultAvgFullyLoaded)
    ensures inputs.annualOvertimeSpend <= 0.0 ==>
      Evaluate(inputs, mode).overtime == Payroll(inputs) * 0.12 * OvertimeSavings(mode)
    ensures inputs.annualWorkersComp <= 0.0 ==>
      Evaluate(inputs, mode).workersComp == Payroll(inputs) * 0.03 * CompReduction(mode)
    ensures inputs.annualOvertimeSpend > 0.0 ==>
      Evaluate(inputs, mode).overtime == inputs.annualOvertimeSpend * OvertimeSavings(mode)
    ensures inputs.annualWorkersComp > 0.0 ==>
      Evaluate(inputs, mode).workersComp == inputs.annualWorkersComp * CompReduction(mode)
  {
  }

  /** The sensitivity rows share one pilot cost basis, so they differ only
      through the loss side: total loss, net benefit and return never fall
      from a lower mode to a higher one. */
  lemma SensitivityRowsOrdered(inputs: CalculatorInputs, m1: RiskMode, m2: RiskMode, capex: real, opex: real)
    requires ValidInputs(inputs)
    requires m1.Rank() <= m2.Rank()
    requires capex + opex > 0.0
    ensures var row1, row2 := BuildSensitivity(inputs, m1, capex, opex), BuildSensitivity(inputs, m2, capex, opex);
      && row1.totalAnnualLoss <= row2.totalAnnualLoss
      && row1.netBenefit <= row2.netBenefit
      && row1.roiMultiplier <= row2.roiMultiplier
  {
    DragsMonotoneInMode(inputs, m1, m2);
    var row1, row2 := BuildSensitivity(inputs, m1, capex, opex), BuildSensitivity(inputs, m2, capex, opex);
    PercentOrdered(row1.netBenefit, row2.netBenefit, capex + opex);
  }

  lemma PercentOrdered(net1: real, net2: real, cost: real)
    requires cost > 0.0 && net1 <= net2
    ensures net1 / cost * 100.0 <= net2 / cost * 100.0
  {
  }

  /** An agency with no staff and no spend entered has no avoidable loss,
      so whatever pilot is priced, its running cost leaves no net benefit
      and both payback figures are N/A. */
  lemma EmptyAgencyHasNoPayback(inputs: CalculatorInputs, mode: RiskMode)
    requires ValidInputs(inputs)
    requires inputs.headcount == 0.0 && inputs.annualOvertimeSpend == 0.0 && inputs.annualWorkersComp == 0.0
    requires Given(inputs.turnoverRatePct) || inputs.annualTurnoverCount == 0.0
    ensures var r := CalculateRoi(inputs, mode);
      && r.totalAvoidableLoss == 0.0
      && r.netBenefit < 0.0
      && r.paybackMonths == None
      && r.breakEvenDays == None
  {
    assert Payroll(inputs) == 0.0;
    if Given(inputs.turnoverRatePct) {
      assert inputs.headcount * (inputs.turnoverRatePct.value / 100.0) == 0.0;
    } else {
      assert inputs.headcount * (DefaultTurnoverRate / 100.0) == 0.0;
    }
    assert Round(0.0) == 0;
    assert Evaluate(inputs, mode).Total() == 0.0;
  }

  /** The break-even day is the payback period converted to days and
      rounded up. */
  lemma BreakEvenIsPaybackInDays(capex: real, netBenefit: real)
    requires netBenefit > 0.0
    ensures BreakEvenDays(capex, netBenefit).value ==
      Ceil(PaybackMonths(capex, netBenefit).value * 365.0 / 12.0)
  {
    var months := PaybackMonths(capex, netBenefit).value;
    assert months == capex * 12.0 / netBenefit;
    assert capex / (netBenefit / 365.0) == capex * 365.0 / netBenefit;
    assert months * 365.0 / 12.0 == capex * 365.0 / netBenefit;
  }

  /** The test scenario: when liability drag is strictly the largest, it
      is the primary driver. */
  lemma LargestDragIsPrimaryDriver(d: Drags, c: Category)
    requires forall k: Category :: k != c ==> DragOf(d, k) < DragOf(d, c)
    ensures PrimaryDriver(d) == c
  {
    var driver := PrimaryDriver(d);
    assert DragOf(d, c) <= DragOf(d, driver);
  }

  /** A tie between the two largest categories goes to the later one. */
  lemma TieGoesToLaterCategory(d: Drags)
    requires d.turnover == d.performance
    requires d.overtime < d.turnover && d.liability < d.turnover && d.workersComp < d.turnover
    ensures PrimaryDriver(d) == Performance
    ensures PrimaryDriver(d).Name() == "Performance"
  {
    var driver := PrimaryDriver(d);
    assert DragOf(d, Turnover) <= DragOf(d, driver);
    assert driver.Position() < Performance.Position() ==> DragOf(d, Performance) < DragOf(d, driver);
  }

  /** calculateScenario never reads the pilot costs it is handed, so every
      pilot cost basis gives the same total. */
  lemma ScenarioIgnoresPilotCosts(inputs: CalculatorInputs, mode: RiskMode, p1: PilotCostBasis, p2: PilotCostBasis)
    ensures CalculateScenario(inputs, mode, p1) == CalculateScenario(inputs, mode, p2)
  {
  }

  /** The default pilot figures are the price of a single room: the room
      rule yields exactly them when, and only when, the agency fits in one
      room. */
  lemma DefaultPilotIsOneRoom(headcount: real)
    ensures CalculatePilotStats(headcount) == PilotStats(1, DefaultPilotCapex, DefaultPilotOpex)
            <==> headcount <= PeoplePerRoom
  {
    var s := CalculatePilotStats(headcount);
    if headcount <= PeoplePerRoom {
      assert s.numRooms == 1;
    } else {
      assert s.numRooms != 1;
    }
  }
}

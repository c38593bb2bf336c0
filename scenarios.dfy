/** Concrete scenarios: the unit-test inputs, the demonstration agency,
    the presets and the constants the fallbacks rely on. */
module Scenarios {
  import opened Types
  import opened Constants
  import opened Calculations
  import opened RuralStaffing
  import opened RoiProperties

  /** The agency of the evaluator's unit tests. */
  const TestInputs: CalculatorInputs := CalculatorInputs(
    agencyType := Police,
    headcount := 100.0,
    locationProfile := Suburb,
    annualOvertimeSpend := 100000.0,
    annualTurnoverCount := 2.0,
    turnoverRatePct := None,
    avgFullyLoadedCost := 100000.0,
    annualWorkersComp := 50000.0,
    avgSickHours := 80.0,
    recruitCost := 10000.0,
    vacancyDays := 30.0,
    trainingCost := 1000.0,
    disabilityRate := 1.0,
    pilotCapex := None,
    pilotOpexAnnual := None,
    pilotDurationDays := None,
    includePerformanceDrag := None,
    liabilityCostPerHead := 500.0,
    population := None,
    ruralSubtype := None,
    isMockData := None)

  /** A recruit cost of 10,000 is ignored: two separations at the 150,000
      default; liability is 100 heads at 500; overtime savings follow the
      mode's multiplier. */
  lemma UnitTestExpectations()
    ensures CalculateRoi(TestInputs, Standard).turnoverDrag == 300000.0
    ensures CalculateRoi(TestInputs, Standard).liabilityDrag == 50000.0
    ensures CalculateRoi(TestInputs, Conservative).overtimeDrag == 100000.0 * 0.05
    ensures CalculateRoi(TestInputs, Aggressive).overtimeDrag == 100000.0 * 0.15
  {
    assert ValidInputs(TestInputs);
    assert EffectiveTurnoverCount(TestInputs) == 2.0;
    assert ReplacementCost(TestInputs) == 150000.0;
    assert OvertimeBasis(TestInputs) == 100000.0;
    assert Evaluate(TestInputs, Standard).turnover == 300000.0;
    assert Evaluate(TestInputs, Standard).liability == 50000.0;
    assert Evaluate(TestInputs, Conservative).overtime == 100000.0 * 0.05;
    assert Evaluate(TestInputs, Aggressive).overtime == 100000.0 * 0.15;
  }

  /** With no spend entered, a 10,000,000 payroll yields 120,000 of overtime
      and 18,000 of workers' comp drag in Standard mode. */
  lemma EstimatedSpendExpectations()
    ensures var inputs := TestInputs.(annualOvertimeSpend := 0.0, annualWorkersComp := 0.0);
      && Payroll(inputs) == 10000000.0
      && CalculateRoi(inputs, Standard).overtimeDrag == 120000.0
      && CalculateRoi(inputs, Standard).workersCompDrag == 18000.0
  {
    var inputs := TestInputs.(annualOvertimeSpend := 0.0, annualWorkersComp := 0.0);
    assert ValidInputs(inputs);
    assert Evaluate(inputs, Standard).overtime == 120000.0;
    assert Evaluate(inputs, Standard).workersComp == 18000.0;
  }

  /** A 10% rate over 100 staff at a 150,000 replacement cost. */
  lemma TurnoverRateExpectation()
    ensures var inputs := TestInputs.(turnoverRatePct := Some(10.0), recruitCost := 150000.0);
      CalculateRoi(inputs, Standard).turnoverDrag == 1500000.0
  {
    var inputs := TestInputs.(turnoverRatePct := Some(10.0), recruitCost := 150000.0);
    assert ValidInputs(inputs);
    assert Round(10.0) == 10;
    assert EffectiveTurnoverCount(inputs) == 10.0;
    assert Evaluate(inputs, Standard).turnover == 1500000.0;
  }

  /** The demonstration agency: its 45,000 capex override means one room,
      performance drag is switched off, its 18,000 recruit cost falls back
      to 150,000, and turnover is the primary driver. */
  lemma DemoScenario()
    ensures var r := CalculateRoi(MockInputs, Standard);
      && r.numRooms == 1
      && r.performanceDrag == 0.0
      && r.turnoverDrag == 34.0 * 150000.0
      && r.totalAvoidableLoss == 5657700.0
      && r.netBenefit == 5645700.0
      && r.breakEvenDays == Some(3)
      && r.primaryDriver == "Turnover"
  {
    assert ValidInputs(MockInputs);
    assert Round(34.2) == 34;
    assert EffectiveTurnoverCount(MockInputs) == 34.0;
    assert ReplacementCost(MockInputs) == 150000.0;
    var d := Evaluate(MockInputs, Standard);
    assert d == Drags(5100000.0, 240000.0, 27000.0, 290700.0, 0.0);
    LargestDragIsPrimaryDriver(d, Turnover);
    assert Round(0.9) == 1;
    assert ResolvePilot(MockInputs) == PilotStats(1, 45000.0, 12000.0);
    var days := 45000.0 / (5645700.0 / 365.0);
    assert 2.0 < days <= 3.0;
    assert Ceil(days) == 3;
  }

  /** The fallback replacement cost passes its own guard, while the default
      and demonstration recruit costs do not. */
  lemma RecruitCostDefaults()
    ensures DefaultReplacementCost > RecruitCostFloor
    ensures DefaultRecruitCost <= RecruitCostFloor && MockInputs.recruitCost <= RecruitCostFloor
    ensures forall inputs: CalculatorInputs :: inputs.recruitCost == DefaultRecruitCost ==>
      ReplacementCost(inputs) == DefaultReplacementCost
  {
  }

  /** Each preset's liability per head is the default for its profile and
      agency type. */
  lemma PresetLiabilityMatchesDefault()
    ensures forall i :: 0 <= i < |Presets| ==>
      Presets[i].data.liabilityCostPerHead
      == GetDefaultLiability(Presets[i].data.locationProfile, Presets[i].data.agencyType)
  {
  }

  /** The rural preset's town of 5,000: 16 police, 16 fire and 11 EMS, so
      38 staff when fire runs EMS and 43 when they are separate. */
  lemma RuralPresetHeadcount()
    ensures RuralBreakdown(5000.0) == Breakdown(16, 16, 11, 22)
    ensures RuralHeadcount(5000.0, MixedServices, true) == 38
    ensures RuralHeadcount(5000.0, MixedServices, false) == 43
  {
    assert Round(16.0) == 16 && Round(16.15) == 16 && Round(11.0) == 11 && Round(5.5) == 6;
  }
}

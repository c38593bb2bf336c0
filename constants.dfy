/** The fixed policy tables: the default values the evaluator falls back
    to, the per-mode multipliers, the demonstration inputs and the three
    quick-start presets. */
module Constants {
  import opened Types

  // DEFAULTS
  const DefaultReplacementCost: real := 150000.0
  const DefaultAvgFullyLoaded: real := 120000.0
  const DefaultSickHours: real := 80.0
  const DefaultRecruitCost: real := 15000.0
  const DefaultTrainingCost: real := 5000.0
  const DefaultVacancyDays: real := 90.0
  const DefaultDisabilityRate: real := 2.5
  const DefaultPilotCapex: real := 50000.0
  const DefaultPilotOpex: real := 12000.0
  /** Default annual turnover, in percent. */
  const DefaultTurnoverRate: real := 10.0

  // MULTIPLIERS: one column per risk mode

  function OvertimeSavings(m: RiskMode): (r: real)
    ensures 0.0 < r < 1.0
  {
    match m
    case Conservative => 0.05
    case Standard => 0.10
    case Aggressive => 0.15
  }

  function CompReduction(m: RiskMode): (r: real)
    ensures 0.0 < r < 1.0
  {
    match m
    case Conservative => 0.03
    case Standard => 0.06
    case Aggressive => 0.10
  }

  function ProductivityLoss(m: RiskMode): (r: real)
    ensures 0.0 < r < 1.0
  {
    match m
    case Conservative => 0.01
    case Standard => 0.02
    case Aggressive => 0.03
  }

  /** Every table strictly increases from Conservative to Aggressive. */
  lemma MultipliersIncrease(m1: RiskMode, m2: RiskMode)
    requires m1.Rank() < m2.Rank()
    ensures OvertimeSavings(m1) < OvertimeSavings(m2)
    ensures CompReduction(m1) < CompReduction(m2)
    ensures ProductivityLoss(m1) < ProductivityLoss(m2)
  {
  }

  /** The demonstration agency used by the "view a demo" flow. */
  const MockInputs: CalculatorInputs := CalculatorInputs(
    agencyType := Police,
    headcount := 342.0,
    locationProfile := Suburb,
    annualOvertimeSpend := 2400000.0,
    annualTurnoverCount := 34.0,
    turnoverRatePct := Some(10.0),
    avgFullyLoadedCost := 135000.0,
    annualWorkersComp := 450000.0,
    avgSickHours := 96.0,
    recruitCost := 18000.0,
    vacancyDays := 110.0,
    trainingCost := 7500.0,
    disabilityRate := 3.2,
    pilotCapex := Some(45000.0),
    pilotOpexAnnual := Some(12000.0),
    pilotDurationDays := Some(90.0),
    includePerformanceDrag := Some(false),
    liabilityCostPerHead := 850.0,
    population := None,
    ruralSubtype := None,
    isMockData := Some(true))

  /** The part of the inputs a preset overwrites. */
  datatype PresetData = PresetData(
    agencyType: AgencyType,
    headcount: real,
    locationProfile: LocationProfile,
    liabilityCostPerHead: real,
    population: Option<real>,
    ruralSubtype: Option<RuralSubtype>)

  datatype Preset = Preset(name: string, description: string, data: PresetData)

  const Presets: seq<Preset> := [
    Preset("Chicago PD Style", "Major City / 11,700+ Sworn",
      PresetData(Police, 11720.0, MajorCity, 8000.0, None, None)),
    Preset("Glendale PD Style", "Suburb / ~350 Sworn",
      PresetData(Police, 348.0, Suburb, 650.0, None, None)),
    Preset("Rural (Avg Town)", "Rural / Pop ~5,000",
      PresetData(Mixed, 35.0, Rural, 500.0, Some(5000.0), Some(MixedServices)))
  ]
}

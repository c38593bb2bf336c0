/** The data shapes of the ROI calculator: the three closed enumerations,
    the input record handed to the evaluator, and the result records it
    builds. Every numeric field of the source is a JavaScript number; here
    it is an exact `real`. */
module Types {

  datatype Option<+T> = None | Some(value: T)

  datatype AgencyType = Police | Fire | EMS | Mixed

  datatype LocationProfile = MajorCity | Suburb | Rural

  /** The risk modes, each bound to one column of the multiplier tables. */
  datatype RiskMode = Conservative | Standard | Aggressive {
    /** Position in the enumeration, used to compare modes. */
    function Rank(): nat {
      match this
      case Conservative => 0
      case Standard => 1
      case Aggressive => 2
    }
  }

  /** The staffing shape picked for a rural department. */
  datatype RuralSubtype = PoliceOnly | FireOnly | EMSOnly | MixedServices

  /** The input aggregate. Optional fields of the source are `Option`s;
      the agency profile (contact details used only by reports) is not
      part of this model. */
  datatype CalculatorInputs = CalculatorInputs(
    agencyType: AgencyType,
    headcount: real,
    locationProfile: LocationProfile,
    annualOvertimeSpend: real,
    annualTurnoverCount: real,
    turnoverRatePct: Option<real>,
    avgFullyLoadedCost: real,
    annualWorkersComp: real,
    avgSickHours: real,
    recruitCost: real,
    vacancyDays: real,
    trainingCost: real,
    disabilityRate: real,
    pilotCapex: Option<real>,
    pilotOpexAnnual: Option<real>,
    pilotDurationDays: Option<real>,
    includePerformanceDrag: Option<bool>,
    liabilityCostPerHead: real,
    population: Option<real>,
    ruralSubtype: Option<RuralSubtype>,
    isMockData: Option<bool>)

  predicate NonNegativeIfPresent(x: Option<real>) {
    x.None? || x.value >= 0.0
  }

  /** The non-negativity the input-collection layer is trusted to enforce:
      nothing in the record's type states it. Fields the evaluator never
      reads are not constrained. */
  predicate ValidInputs(inputs: CalculatorInputs) {
    && inputs.headcount >= 0.0
    && inputs.annualOvertimeSpend >= 0.0
    && inputs.annualTurnoverCount >= 0.0
    && NonNegativeIfPresent(inputs.turnoverRatePct)
    && inputs.avgFullyLoadedCost >= 0.0
    && inputs.annualWorkersComp >= 0.0
    && inputs.recruitCost >= 0.0
    && NonNegativeIfPresent(inputs.pilotCapex)
    && NonNegativeIfPresent(inputs.pilotOpexAnnual)
    && inputs.liabilityCostPerHead >= 0.0
  }

  /** One row of the sensitivity table. The payback period is `None` where
      the source shows the "N/A" sentinel. */
  datatype SensitivityResult = SensitivityResult(
    mode: RiskMode,
    totalAnnualLoss: real,
    netBenefit: real,
    paybackMonths: Option<real>,
    roiMultiplier: real)

  /** Exactly one row per risk mode. */
  datatype Sensitivity = Sensitivity(
    conservative: SensitivityResult,
    standard: SensitivityResult,
    aggressive: SensitivityResult)
  {
    function Row(m: RiskMode): SensitivityResult {
      match m
      case Conservative => conservative
      case Standard => standard
      case Aggressive => aggressive
    }
  }

  datatype CalculationResult = CalculationResult(
    turnoverDrag: real,
    overtimeDrag: real,
    workersCompDrag: real,
    liabilityDrag: real,
    performanceDrag: real,
    totalAvoidableLoss: real,
    pilotCost: real,
    netBenefit: real,
    paybackMonths: Option<real>,
    breakEvenDays: Option<int>,
    numRooms: int,
    sensitivity: Sensitivity,
    primaryDriver: string)
}

/** The rural headcount derivation of the quick calculator: staffing
    estimated from the population protected, the department's make-up and
    whether the fire service also runs EMS. */
module RuralStaffing {
  import opened Types
  import opened Calculations

  /** The per-service estimates shown beside the rural sliders. */
  datatype Breakdown = Breakdown(police: int, fire: int, ems: int, combinedFireEms: int)

  /** Police at 3.2 and fire at 3.23 per thousand residents; EMS from a
      baseline of 11 per 5,000 residents, clamped to [8, 18]; a combined
      fire/EMS service counts the larger group in full and half of the
      smaller one (cross-trained staff). */
  function RuralBreakdown(population: real): (b: Breakdown)
    ensures 8 <= b.ems <= 18
    ensures population >= 0.0 ==> b.police >= 0 && b.fire >= 0
    ensures population >= 0.0 ==>
      Max(b.fire, b.ems) <= b.combinedFireEms <= b.fire + b.ems
  {
    var police := Round(population * 3.2 / 1000.0);
    var fire := Round(population * 3.23 / 1000.0);
    var ems := Min(18, Max(8, Round(11.0 * (population / 5000.0))));
    var combinedFireEms := Max(fire, ems) + Round(Min(fire, ems) as real * 0.5);
    Breakdown(police, fire, ems, combinedFireEms)
  }

  /** The headcount the derivation writes into the inputs. */
  function RuralHeadcount(population: real, subtype: RuralSubtype, fireProvidesEms: bool): (h: int)
    ensures subtype == PoliceOnly ==> h == RuralBreakdown(population).police
    ensures subtype == FireOnly ==> h == RuralBreakdown(population).fire
    ensures subtype == EMSOnly ==> h == RuralBreakdown(population).ems
    ensures subtype == MixedServices && fireProvidesEms ==>
      h == RuralBreakdown(population).police + RuralBreakdown(population).combinedFireEms
    ensures subtype == MixedServices && !fireProvidesEms ==>
      h == RuralBreakdown(population).police + RuralBreakdown(population).fire + RuralBreakdown(population).ems
  {
    var b := RuralBreakdown(population);
    match subtype
    case PoliceOnly => b.police
    case FireOnly => b.fire
    case EMSOnly => b.ems
    case MixedServices => if fireProvidesEms then b.police + b.combinedFireEms else b.police + b.fire + b.ems
  }

  /** A mixed department whose fire service runs EMS never needs more staff
      than one with separate fire and EMS services. */
  lemma CombinedServiceNeverLarger(population: real)
    requires population >= 0.0
    ensures RuralHeadcount(population, MixedServices, true) <= RuralHeadcount(population, MixedServices, false)
  {
  }

  /** Every estimate grows (weakly) with the population protected. */
  lemma BreakdownMonotone(p1: real, p2: real)
    requires 0.0 <= p1 <= p2
    ensures RuralBreakdown(p1).police <= RuralBreakdown(p2).police
    ensures RuralBreakdown(p1).fire <= RuralBreakdown(p2).fire
    ensures RuralBreakdown(p1).ems <= RuralBreakdown(p2).ems
    ensures RuralBreakdown(p1).combinedFireEms <= RuralBreakdown(p2).combinedFireEms
  {
    RoundMonotone(p1 * 3.2 / 1000.0, p2 * 3.2 / 1000.0);
    RoundMonotone(p1 * 3.23 / 1000.0, p2 * 3.23 / 1000.0);
    RoundMonotone(11.0 * (p1 / 5000.0), 11.0 * (p2 / 5000.0));
    var b1, b2 := RuralBreakdown(p1), RuralBreakdown(p2);
    RoundMonotone(Min(b1.fire, b1.ems) as real * 0.5, Min(b2.fire, b2.ems) as real * 0.5);
  }

  lemma RuralHeadcountMonotone(p1: real, p2: real, subtype: RuralSubtype, fireProvidesEms: bool)
    requires 0.0 <= p1 <= p2
    ensures RuralHeadcount(p1, subtype, fireProvidesEms) <= RuralHeadcount(p2, subtype, fireProvidesEms)
  {
    BreakdownMonotone(p1, p2);
  }

  /** The derivation runs only for the Rural profile, and then replaces the
      headcount, population and subtype and keeps every other field. */
  function ApplyRuralDerivation(inputs: CalculatorInputs, population: real, subtype: RuralSubtype,
                                fireProvidesEms: bool): (r: CalculatorInputs)
    ensures inputs.locationProfile != Rural ==> r == inputs
    ensures r.(headcount := inputs.headcount, population := inputs.population, ruralSubtype := inputs.ruralSubtype)
            == inputs
    ensures inputs.locationProfile == Rural ==>
      && r.headcount == RuralHeadcount(population, subtype, fireProvidesEms) as real
      && r.population == Some(population)
      && r.ruralSubtype == Some(subtype)
  {
    if inputs.locationProfile != Rural then inputs
    else
      inputs.(headcount := RuralHeadcount(population, subtype, fireProvidesEms) as real,
              population := Some(population),
              ruralSubtype := Some(subtype))
  }
}

/** The interior square-footage calculator: one per-square-foot rate chosen
    by the pricing option, no materials, and the usual markup. */
module InteriorSquareFootage {
  import opened CalculatorTypes
  import opened SettingsTypes
  import opened DefaultPricing

  /** `calculateInteriorSqftAutoMeasurements`: the house area scaled by each
      configured multiplier. */
  function InteriorSqftAutoMeasurements(houseSquareFootage: real, pricing: PricingSettings): (r: InteriorSqftAutoCalcs)
    ensures r.wallSqft == houseSquareFootage * pricing.interiorMultipliers.wall
    ensures r.ceilingSqft == houseSquareFootage * pricing.interiorMultipliers.ceiling
    ensures r.trimLF == houseSquareFootage * pricing.interiorMultipliers.trim
    ensures houseSquareFootage == 0.0 ==> r == InteriorSqftAutoCalcs(0.0, 0.0, 0.0)
  {
    InteriorSqftAutoCalcs(
      wallSqft := houseSquareFootage * pricing.interiorMultipliers.wall,
      ceilingSqft := houseSquareFootage * pricing.interiorMultipliers.ceiling,
      trimLF := houseSquareFootage * pricing.interiorMultipliers.trim)
  }

  /** The measurements of two areas together are the sums of their measurements. */
  lemma AutoMeasurementsAdditive(a: real, b: real, pricing: PricingSettings)
    ensures var ra := InteriorSqftAutoMeasurements(a, pricing);
            var rb := InteriorSqftAutoMeasurements(b, pricing);
            var rab := InteriorSqftAutoMeasurements(a + b, pricing);
            && rab.wallSqft == ra.wallSqft + rb.wallSqft
            && rab.ceilingSqft == ra.ceilingSqft + rb.ceilingSqft
            && rab.trimLF == ra.trimLF + rb.trimLF
  {
    var m := pricing.interiorMultipliers;
    Distributes(a, b, m.wall);
    Distributes(a, b, m.ceiling);
    Distributes(a, b, m.trim);
  }

  /** With non-negative multipliers a larger house never measures less. */
  lemma AutoMeasurementsMonotone(a: real, b: real, pricing: PricingSettings)
    requires a <= b
    requires var m := pricing.interiorMultipliers; m.wall >= 0.0 && m.ceiling >= 0.0 && m.trim >= 0.0
    ensures var ra := InteriorSqftAutoMeasurements(a, pricing);
            var rb := InteriorSqftAutoMeasurements(b, pricing);
            ra.wallSqft <= rb.wallSqft && ra.ceilingSqft <= rb.ceilingSqft && ra.trimLF <= rb.trimLF
  {
    var m := pricing.interiorMultipliers;
    ScaleMonotone(a, b, m.wall);
    ScaleMonotone(a, b, m.ceiling);
    ScaleMonotone(a, b, m.trim);
  }

  /** At the default multipliers (3.2, 1.0, 0.35) a 2000 sq ft house has
      6400 sq ft of walls, 2000 sq ft of ceilings and 700 ft of trim. */
  lemma AutoMeasurementsDefaultExample()
    ensures InteriorSqftAutoMeasurements(2000.0, CreateDefaultPricingSettings())
            == InteriorSqftAutoCalcs(6400.0, 2000.0, 700.0)
  {
  }

  /** The per-square-foot rate the `switch` selects for an option. */
  function OptionRate(option: InteriorSqftOption, rates: InteriorSqftRates): real
  {
    match option
    case WallsOnly => rates.wallsOnly
    case TrimOnly => rates.trimOnly
    case CeilingsOnly => rates.ceilingsOnly
    case Complete => rates.complete
  }

  /** `calculateInteriorSquareFootage` (the timestamp aside). */
  function InteriorSquareFootageBid(inputs: InteriorSqftInputs, pricing: PricingSettings): (r: BidResult)
    ensures r.materials == MaterialBreakdown([], 0.0)
    ensures r.profit == Profit(r.labor, inputs.markup)
    ensures r.total == r.labor + r.profit
    ensures r.breakdown == InteriorSqftDetail(inputs.houseSquareFootage, inputs.pricingOption,
                             InteriorSqftAutoMeasurements(inputs.houseSquareFootage, pricing), inputs.markup)
  {
    var laborCost := inputs.houseSquareFootage * OptionRate(inputs.pricingOption, pricing.interiorSqft);
    var autoCalcs := InteriorSqftAutoMeasurements(inputs.houseSquareFootage, pricing);
    var materials := MaterialBreakdown([], 0.0);
    var totalCost := laborCost + materials.totalCost;
    var profit := Profit(totalCost, inputs.markup);
    BidResult(laborCost, materials, profit, totalCost + profit,
      InteriorSqftDetail(inputs.houseSquareFootage, inputs.pricingOption, autoCalcs, inputs.markup))
  }

  /** The labor is the house area at exactly the rate the option names. */
  lemma LaborPerOption(inputs: InteriorSqftInputs, pricing: PricingSettings)
    ensures var r := InteriorSquareFootageBid(inputs, pricing);
            var h, rates := inputs.houseSquareFootage, pricing.interiorSqft;
            && (inputs.pricingOption == WallsOnly ==> r.labor == h * rates.wallsOnly)
            && (inputs.pricingOption == TrimOnly ==> r.labor == h * rates.trimOnly)
            && (inputs.pricingOption == CeilingsOnly ==> r.labor == h * rates.ceilingsOnly)
            && (inputs.pricingOption == Complete ==> r.labor == h * rates.complete)
  {
  }

  /** Only the selected rate matters: changing any rate the option does not
      name leaves the whole bid as it was. */
  lemma OnlySelectedRateMatters(inputs: InteriorSqftInputs, pricing: PricingSettings, other: InteriorSqftRates)
    requires OptionRate(inputs.pricingOption, other) == OptionRate(inputs.pricingOption, pricing.interiorSqft)
    ensures InteriorSquareFootageBid(inputs, pricing.(interiorSqft := other)) == InteriorSquareFootageBid(inputs, pricing)
  {
  }

  /** An empty house costs nothing and measures nothing. */
  lemma ZeroSquareFootage(inputs: InteriorSqftInputs, pricing: PricingSettings)
    requires inputs.houseSquareFootage == 0.0
    ensures var r := InteriorSquareFootageBid(inputs, pricing);
            r.labor == 0.0 && r.profit == 0.0 && r.total == 0.0
            && r.breakdown.interiorAuto == InteriorSqftAutoCalcs(0.0, 0.0, 0.0)
  {
  }

  /** The bid scales with the house: the labor, profit and total for `a + b`
      square feet are the sums of those for `a` and for `b`. */
  lemma Additive(inputs: InteriorSqftInputs, pricing: PricingSettings, a: real, b: real)
    ensures var ra := InteriorSquareFootageBid(inputs.(houseSquareFootage := a), pricing);
            var rb := InteriorSquareFootageBid(inputs.(houseSquareFootage := b), pricing);
            var rab := InteriorSquareFootageBid(inputs.(houseSquareFootage := a + b), pricing);
            && rab.labor == ra.labor + rb.labor
            && rab.profit == ra.profit + rb.profit
            && rab.total == ra.total + rb.total
  {
    var rate := OptionRate(inputs.pricingOption, pricing.interiorSqft);
    var la, lb := a * rate, b * rate;
    Distributes(a, b, rate);
    ProfitAdditive(la, lb, inputs.markup);
  }

  /** A non-negative area and rate give a non-negative bid whose profit lies
      between 35% and 60% of the labor. */
  lemma NonNegative(inputs: InteriorSqftInputs, pricing: PricingSettings)
    requires inputs.houseSquareFootage >= 0.0
    requires OptionRate(inputs.pricingOption, pricing.interiorSqft) >= 0.0
    ensures var r := InteriorSquareFootageBid(inputs, pricing);
            && r.labor >= 0.0
            && 0.35 * r.labor <= r.profit <= 0.60 * r.labor
            && r.total >= r.labor
  {
    var r := InteriorSquareFootageBid(inputs, pricing);
    assert r.labor == inputs.houseSquareFootage * OptionRate(inputs.pricingOption, pricing.interiorSqft);
    ProfitBounds(r.labor, inputs.markup);
  }

  /** On the default rates a 2000 sq ft complete repaint at 40% markup is
      $5,000 of labor, $2,000 of profit and $7,000 in all. */
  lemma CompleteDefaultExample(pricing: PricingSettings)
    requires pricing.interiorSqft == DefaultInteriorSqftRates()
    ensures var r := InteriorSquareFootageBid(InteriorSqftInputs(2000.0, Complete, 40), pricing);
            r.labor == 5000.0 && r.profit == 2000.0 && r.total == 7000.0
  {
  }
}

/** The exterior square-footage calculator: one per-square-foot rate chosen
    by the pricing option, no materials, and the usual markup. */
module ExteriorSquareFootage {
  import opened CalculatorTypes
  import opened SettingsTypes
  import opened DefaultPricing

  /** `calculateExteriorSqftAutoMeasurements`: the house area scaled by the
      siding and trim multipliers. */
  function ExteriorSqftAutoMeasurements(houseSquareFootage: real, pricing: PricingSettings): (r: ExteriorSqftAutoCalcs)
    ensures r.sidingSqft == houseSquareFootage * pricing.exteriorMultipliers.siding
    ensures r.trimLF == houseSquareFootage * pricing.exteriorMultipliers.trim
    ensures houseSquareFootage == 0.0 ==> r == ExteriorSqftAutoCalcs(0.0, 0.0)
  {
    ExteriorSqftAutoCalcs(
      sidingSqft := houseSquareFootage * pricing.exteriorMultipliers.siding,
      trimLF := houseSquareFootage * pricing.exteriorMultipliers.trim)
  }

  /** The measurements of two areas together are the sums of their measurements. */
  lemma AutoMeasurementsAdditive(a: real, b: real, pricing: PricingSettings)
    ensures var ra := ExteriorSqftAutoMeasurements(a, pricing);
            var rb := ExteriorSqftAutoMeasurements(b, pricing);
            var rab := ExteriorSqftAutoMeasurements(a + b, pricing);
            rab.sidingSqft == ra.sidingSqft + rb.sidingSqft && rab.trimLF == ra.trimLF + rb.trimLF
  {
    Distributes(a, b, pricing.exteriorMultipliers.siding);
    Distributes(a, b, pricing.exteriorMultipliers.trim);
  }

  /** With non-negative multipliers a larger house never measures less. */
  lemma AutoMeasurementsMonotone(a: real, b: real, pricing: PricingSettings)
    requires a <= b
    requires pricing.exteriorMultipliers.siding >= 0.0 && pricing.exteriorMultipliers.trim >= 0.0
    ensures var ra := ExteriorSqftAutoMeasurements(a, pricing);
            var rb := ExteriorSqftAutoMeasurements(b, pricing);
            ra.sidingSqft <= rb.sidingSqft && ra.trimLF <= rb.trimLF
  {
    ScaleMonotone(a, b, pricing.exteriorMultipliers.siding);
    ScaleMonotone(a, b, pricing.exteriorMultipliers.trim);
  }

  /** At the default multipliers (1.4, 0.30) a 2000 sq ft house has
      2800 sq ft of siding and 600 ft of trim. */
  lemma AutoMeasurementsDefaultExample()
    ensures ExteriorSqftAutoMeasurements(2000.0, CreateDefaultPricingSettings())
            == ExteriorSqftAutoCalcs(2800.0, 600.0)
  {
  }

  /** The per-square-foot rate the `switch` selects for an option. */
  function OptionRate(option: ExteriorSqftOption, rates: ExteriorSqftRates): real
  {
    match option
    case FullExterior => rates.fullExterior
    case ExteriorTrimOnly => rates.trimOnly
  }

  /** `calculateExteriorSquareFootage` (the timestamp aside). */
  function ExteriorSquareFootageBid(inputs: ExteriorSqftInputs, pricing: PricingSettings): (r: BidResult)
    ensures r.materials == MaterialBreakdown([], 0.0)
    ensures r.profit == Profit(r.labor, inputs.markup)
    ensures r.total == r.labor + r.profit
    ensures r.breakdown == ExteriorSqftDetail(inputs.houseSquareFootage, inputs.pricingOption,
                             ExteriorSqftAutoMeasurements(inputs.houseSquareFootage, pricing), inputs.markup)
  {
    var laborCost := inputs.houseSquareFootage * OptionRate(inputs.pricingOption, pricing.exteriorSqft);
    var autoCalcs := ExteriorSqftAutoMeasurements(inputs.houseSquareFootage, pricing);
    var materials := MaterialBreakdown([], 0.0);
    var totalCost := laborCost + materials.totalCost;
    var profit := Profit(totalCost, inputs.markup);
    BidResult(laborCost, materials, profit, totalCost + profit,
      ExteriorSqftDetail(inputs.houseSquareFootage, inputs.pricingOption, autoCalcs, inputs.markup))
  }

  /** The labor is the house area at exactly the rate the option names. */
  lemma LaborPerOption(inputs: ExteriorSqftInputs, pricing: PricingSettings)
    ensures var r := ExteriorSquareFootageBid(inputs, pricing);
            var h, rates := inputs.houseSquareFootage, pricing.exteriorSqft;
            && (inputs.pricingOption == FullExterior ==> r.labor == h * rates.fullExterior)
            && (inputs.pricingOption == ExteriorTrimOnly ==> r.labor == h * rates.trimOnly)
  {
  }

  /** Only the selected rate matters: changing the rate the option does not
      name leaves the whole bid as it was. */
  lemma OnlySelectedRateMatters(inputs: ExteriorSqftInputs, pricing: PricingSettings, other: ExteriorSqftRates)
    requires OptionRate(inputs.pricingOption, other) == OptionRate(inputs.pricingOption, pricing.exteriorSqft)
    ensures ExteriorSquareFootageBid(inputs, pricing.(exteriorSqft := other)) == ExteriorSquareFootageBid(inputs, pricing)
  {
  }

  /** An empty house costs nothing and measures nothing. */
  lemma ZeroSquareFootage(inputs: ExteriorSqftInputs, pricing: PricingSettings)
    requires inputs.houseSquareFootage == 0.0
    ensures var r := ExteriorSquareFootageBid(inputs, pricing);
            r.labor == 0.0 && r.profit == 0.0 && r.total == 0.0
            && r.breakdown.exteriorAuto == ExteriorSqftAutoCalcs(0.0, 0.0)
  {
  }

  /** The bid scales with the house: the labor, profit and total for `a + b`
      square feet are the sums of those for `a` and for `b`. */
  lemma Additive(inputs: ExteriorSqftInputs, pricing: PricingSettings, a: real, b: real)
    ensures var ra := ExteriorSquareFootageBid(inputs.(houseSquareFootage := a), pricing);
            var rb := ExteriorSquareFootageBid(inputs.(houseSquareFootage := b), pricing);
            var rab := ExteriorSquareFootageBid(inputs.(houseSquareFootage := a + b), pricing);
            && rab.labor == ra.labor + rb.labor
            && rab.profit == ra.profit + rb.profit
            && rab.total == ra.total + rb.total
  {
    var rate := OptionRate(inputs.pricingOption, pricing.exteriorSqft);
    var la, lb := a * rate, b * rate;
    Distributes(a, b, rate);
    ProfitAdditive(la, lb, inputs.markup);
  }

  /** A non-negative area and rate give a non-negative bid whose profit lies
      between 35% and 60% of the labor. */
  lemma NonNegative(inputs: ExteriorSqftInputs, pricing: PricingSettings)
    requires inputs.houseSquareFootage >= 0.0
    requires OptionRate(inputs.pricingOption, pricing.exteriorSqft) >= 0.0
    ensures var r := ExteriorSquareFootageBid(inputs, pricing);
            && r.labor >= 0.0
            && 0.35 * r.labor <= r.profit <= 0.60 * r.labor
            && r.total >= r.labor
  {
    var r := ExteriorSquareFootageBid(inputs, pricing);
    assert r.labor == inputs.houseSquareFootage * OptionRate(inputs.pricingOption, pricing.exteriorSqft);
    ProfitBounds(r.labor, inputs.markup);
  }

  /** On the default rates a 2000 sq ft full exterior at 40% markup is
      $4,000 of labor, $1,600 of profit and $5,600 in all. */
  lemma FullExteriorDefaultExample(pricing: PricingSettings)
    requires pricing.exteriorSqft == DefaultExteriorSqftRates()
    ensures var r := ExteriorSquareFootageBid(ExteriorSqftInputs(2000.0, FullExterior, 40), pricing);
            r.labor == 4000.0 && r.profit == 1600.0 && r.total == 5600.0
  {
  }
}

/** The exterior detailed calculator: per-category labor from line-item
    rates, the multiplicative exterior modifiers, paint materials, and
    markup on labor plus materials. */
module ExteriorDetailed {
  import opened Seqs
  import opened CalculatorTypes
  import opened SettingsTypes
  import opened LineItemRates
  import opened ModifierApplications
  import opened MaterialCalculations
  import opened DefaultPricing

  // ---------------------------------------------------------------------
  // The categories of labor, each quantity priced at its line item's rate

  function MeasurementsLabor(inputs: ExteriorDetailedInputs, lineItems: seq<LineItemConfig>): ExteriorMeasurementsLabor
  {
    ExteriorMeasurementsLabor(
      walls := inputs.wallSqft * GetRate(lineItems, "ext-wall-sqft"),
      trimFasciaSoffit := inputs.trimFasciaSoffitLF * GetRate(lineItems, "ext-trim-fascia-soffit-lf"))
  }

  function DoorsShuttersLabor(inputs: ExteriorDetailedInputs, lineItems: seq<LineItemConfig>): ExteriorDoorsShuttersLabor
  {
    ExteriorDoorsShuttersLabor(
      doors := inputs.doors * GetRate(lineItems, "ext-door"),
      shutters := inputs.shutters * GetRate(lineItems, "ext-shutter"),
      doorsToRefinish := inputs.doorsToRefinish * GetRate(lineItems, "ext-door-refinish"))
  }

  /** Priming is charged both per square foot and per linear foot. */
  function PrepWorkLabor(inputs: ExteriorDetailedInputs, lineItems: seq<LineItemConfig>): ExteriorPrepWorkLabor
  {
    ExteriorPrepWorkLabor(
      priming := inputs.primingSqft * GetRate(lineItems, "ext-priming-sqft")
                 + inputs.primingLF * GetRate(lineItems, "ext-priming-lf"))
  }

  function ReplacementsLabor(inputs: ExteriorDetailedInputs, lineItems: seq<LineItemConfig>): ExteriorReplacementsLabor
  {
    ExteriorReplacementsLabor(
      sidingReplacement := inputs.sidingReplacementSqft * GetRate(lineItems, "ext-siding-replacement-sqft"),
      trimReplacement := inputs.trimReplacementLF * GetRate(lineItems, "ext-trim-replacement-lf"),
      soffitFasciaReplacement := inputs.soffitFasciaReplacementLF * GetRate(lineItems, "ext-soffit-fascia-replacement-lf"),
      bondoRepairs := inputs.bondoRepairs * GetRate(lineItems, "ext-bondo-repair"))
  }

  function AdditionalLabor(inputs: ExteriorDetailedInputs, lineItems: seq<LineItemConfig>): ExteriorAdditionalLabor
  {
    ExteriorAdditionalLabor(
      deckStaining := inputs.deckStainingSqft * GetRate(lineItems, "ext-deck-staining-sqft"),
      miscPressureWashing := inputs.miscPressureWashingSqft * GetRate(lineItems, "ext-misc-pressure-washing-sqft"),
      miscWork := inputs.miscWorkHours * GetRate(lineItems, "ext-misc-work-hour"),
      miscellaneous := inputs.miscellaneousDollars * GetRate(lineItems, "ext-miscellaneous-dollars"))
  }

  /** `Object.values` of the reduced category records, in field order. */
  function DoorsShuttersValues(d: ExteriorDoorsShuttersLabor): seq<real>
  {
    [d.doors, d.shutters, d.doorsToRefinish]
  }

  function ReplacementsValues(r: ExteriorReplacementsLabor): seq<real>
  {
    [r.sidingReplacement, r.trimReplacement, r.soffitFasciaReplacement, r.bondoRepairs]
  }

  function AdditionalValues(a: ExteriorAdditionalLabor): seq<real>
  {
    [a.deckStaining, a.miscPressureWashing, a.miscWork, a.miscellaneous]
  }

  /** The accumulated `baseLabor`: measurements, the reduced doors and
      shutters, priming, then the reduced replacements and additional work. */
  function BaseLabor(inputs: ExteriorDetailedInputs, lineItems: seq<LineItemConfig>): real
  {
    var m := MeasurementsLabor(inputs, lineItems);
    0.0 + (m.walls + m.trimFasciaSoffit)
    + Sum(DoorsShuttersValues(DoorsShuttersLabor(inputs, lineItems)))
    + PrepWorkLabor(inputs, lineItems).priming
    + Sum(ReplacementsValues(ReplacementsLabor(inputs, lineItems)))
    + Sum(AdditionalValues(AdditionalLabor(inputs, lineItems)))
  }

  /** The material quantities the detailed inputs forward to the estimator:
      the trim/fascia/soffit footage is the trim quantity. */
  function MaterialInputsOf(inputs: ExteriorDetailedInputs): ExteriorMaterialInputs
  {
    ExteriorMaterialInputs(inputs.wallSqft, inputs.trimFasciaSoffitLF, inputs.doors, inputs.paintType)
  }

  /** What `calculateExteriorDetailed` returns (the timestamp aside): the
      base labor scaled by the enabled modifiers, the paint estimate of the
      forwarded quantities, and labor + materials marked up. */
  function ExteriorDetailedBid(inputs: ExteriorDetailedInputs, pricing: PricingSettings): (r: BidResult)
    requires ExteriorDivisible(MaterialInputsOf(inputs), pricing.exteriorCoverage)
    ensures r.labor == Scaled(BaseLabor(inputs, pricing.lineItems), ExteriorChain(inputs.modifiers))
    ensures r.materials == ExteriorMaterials(MaterialInputsOf(inputs), pricing)
    ensures r.profit == Profit(r.labor + r.materials.totalCost, inputs.markup)
    ensures r.total == MarkedUpTotal(r.labor + r.materials.totalCost, inputs.markup)
  {
    var li := pricing.lineItems;
    var baseLabor := BaseLabor(inputs, li);
    var chain := ExteriorChain(inputs.modifiers);
    var labor := Applied(baseLabor, chain);
    var materials := ExteriorMaterials(MaterialInputsOf(inputs), pricing);
    var subtotal := labor + materials.totalCost;
    var profit := Profit(subtotal, inputs.markup);
    AppliedIsScaling(baseLabor, chain);
    TotalIsMarkedUp(subtotal, inputs.markup);
    BidResult(labor, materials, profit, subtotal + profit,
      ExteriorDetailedDetail(ExteriorDetailedBreakdown(
        MeasurementsLabor(inputs, li), DoorsShuttersLabor(inputs, li), PrepWorkLabor(inputs, li),
        ReplacementsLabor(inputs, li), AdditionalLabor(inputs, li), baseLabor, FiredLabels(chain), labor)))
  }

  /** The `baseLabor +=` accumulation of `calculateExteriorDetailed`: each
      category's record and its running total, in source order. */
  method AccumulateBaseLabor(inputs: ExteriorDetailedInputs, li: seq<LineItemConfig>)
    returns (baseLabor: real, measurementsLabor: ExteriorMeasurementsLabor,
             doorsAndShuttersLabor: ExteriorDoorsShuttersLabor, prepWorkLabor: ExteriorPrepWorkLabor,
             replacementsAndRepairsLabor: ExteriorReplacementsLabor, additionalLabor: ExteriorAdditionalLabor)
    ensures measurementsLabor == MeasurementsLabor(inputs, li)
    ensures doorsAndShuttersLabor == DoorsShuttersLabor(inputs, li)
    ensures prepWorkLabor == PrepWorkLabor(inputs, li)
    ensures replacementsAndRepairsLabor == ReplacementsLabor(inputs, li)
    ensures additionalLabor == AdditionalLabor(inputs, li)
    ensures baseLabor == BaseLabor(inputs, li)
  {
    baseLabor := 0.0;

    measurementsLabor := MeasurementsLabor(inputs, li);
    baseLabor := baseLabor + (measurementsLabor.walls + measurementsLabor.trimFasciaSoffit);

    doorsAndShuttersLabor := DoorsShuttersLabor(inputs, li);
    var doorsAndShuttersTotal := SumValues(DoorsShuttersValues(doorsAndShuttersLabor));
    baseLabor := baseLabor + doorsAndShuttersTotal;

    prepWorkLabor := PrepWorkLabor(inputs, li);
    baseLabor := baseLabor + prepWorkLabor.priming;

    replacementsAndRepairsLabor := ReplacementsLabor(inputs, li);
    var replacementsTotal := SumValues(ReplacementsValues(replacementsAndRepairsLabor));
    baseLabor := baseLabor + replacementsTotal;

    additionalLabor := AdditionalLabor(inputs, li);
    var additionalTotal := SumValues(AdditionalValues(additionalLabor));
    baseLabor := baseLabor + additionalTotal;
  }

  /** `calculateExteriorDetailed`: accumulate the base labor category by
      category, apply the modifiers, estimate the materials, mark up. */
  method CalculateExteriorDetailed(inputs: ExteriorDetailedInputs, pricing: PricingSettings)
    returns (result: BidResult)
    requires ExteriorDivisible(MaterialInputsOf(inputs), pricing.exteriorCoverage)
    ensures result == ExteriorDetailedBid(inputs, pricing)
  {
    var baseLabor, measurementsLabor, doorsAndShuttersLabor, prepWorkLabor, replacementsAndRepairsLabor,
        additionalLabor := AccumulateBaseLabor(inputs, pricing.lineItems);
    var modifiedLabor, appliedModifiers := ApplyExteriorModifiers(baseLabor, inputs.modifiers);

    var materials := CalculateExteriorMaterials(MaterialInputsOf(inputs), pricing);

    ghost var expected := ExteriorDetailedBid(inputs, pricing);
    assert modifiedLabor == expected.labor;
    assert materials == expected.materials;
    var subtotal := modifiedLabor + materials.totalCost;
    var profit := Profit(subtotal, inputs.markup);
    var total := subtotal + profit;

    var breakdown := ExteriorDetailedBreakdown(measurementsLabor, doorsAndShuttersLabor, prepWorkLabor,
                                               replacementsAndRepairsLabor, additionalLabor, baseLabor,
                                               appliedModifiers, modifiedLabor);
    result := BidResult(modifiedLabor, materials, profit, total, ExteriorDetailedDetail(breakdown));
  }

  // ---------------------------------------------------------------------
  // The reference: every charged quantity against its line item

  /** The fifteen quantities the calculator charges, each with the line item
      whose rate it is charged at, category by category. */
  function ExteriorRateUses(inputs: ExteriorDetailedInputs): seq<RateUse>
  {
    MeasurementsUses(inputs) + DoorsShuttersUses(inputs) + PrepWorkUses(inputs)
    + ReplacementsUses(inputs) + AdditionalUses(inputs)
  }

  function MeasurementsUses(inputs: ExteriorDetailedInputs): seq<RateUse>
  {
    [ RateUse("ext-wall-sqft", inputs.wallSqft),
      RateUse("ext-trim-fascia-soffit-lf", inputs.trimFasciaSoffitLF) ]
  }

  function DoorsShuttersUses(inputs: ExteriorDetailedInputs): seq<RateUse>
  {
    [ RateUse("ext-door", inputs.doors),
      RateUse("ext-shutter", inputs.shutters),
      RateUse("ext-door-refinish", inputs.doorsToRefinish) ]
  }

  function PrepWorkUses(inputs: ExteriorDetailedInputs): seq<RateUse>
  {
    [ RateUse("ext-priming-sqft", inputs.primingSqft),
      RateUse("ext-priming-lf", inputs.primingLF) ]
  }

  function ReplacementsUses(inputs: ExteriorDetailedInputs): seq<RateUse>
  {
    [ RateUse("ext-siding-replacement-sqft", inputs.sidingReplacementSqft),
      RateUse("ext-trim-replacement-lf", inputs.trimReplacementLF),
      RateUse("ext-soffit-fascia-replacement-lf", inputs.soffitFasciaReplacementLF),
      RateUse("ext-bondo-repair", inputs.bondoRepairs) ]
  }

  function AdditionalUses(inputs: ExteriorDetailedInputs): seq<RateUse>
  {
    [ RateUse("ext-deck-staining-sqft", inputs.deckStainingSqft),
      RateUse("ext-misc-pressure-washing-sqft", inputs.miscPressureWashingSqft),
      RateUse("ext-misc-work-hour", inputs.miscWorkHours),
      RateUse("ext-miscellaneous-dollars", inputs.miscellaneousDollars) ]
  }

  /** The base labor is exactly the sum of quantity × rate over the fifteen
      charged line items: no quantity is dropped or counted twice. */
  lemma BaseLaborIsPriced(inputs: ExteriorDetailedInputs, lineItems: seq<LineItemConfig>)
    ensures BaseLabor(inputs, lineItems) == Priced(ExteriorRateUses(inputs), lineItems)
  {
    var mu, du, pu, ru, au := MeasurementsUses(inputs), DoorsShuttersUses(inputs), PrepWorkUses(inputs),
                              ReplacementsUses(inputs), AdditionalUses(inputs);
    ChargesConcat(mu + du + pu + ru, au, lineItems);
    ChargesConcat(mu + du + pu, ru, lineItems);
    ChargesConcat(mu + du, pu, lineItems);
    ChargesConcat(mu, du, lineItems);
    var mc, dc, pc, rc, ac := Charges(mu, lineItems), Charges(du, lineItems), Charges(pu, lineItems),
                              Charges(ru, lineItems), Charges(au, lineItems);
    SumConcat(mc + dc + pc + rc, ac);
    SumConcat(mc + dc + pc, rc);
    SumConcat(mc + dc, pc);
    SumConcat(mc, dc);
    MeasurementsPriced(inputs, lineItems);
    DoorsShuttersPriced(inputs, lineItems);
    PrepWorkPriced(inputs, lineItems);
    ReplacementsPriced(inputs, lineItems);
    AdditionalPriced(inputs, lineItems);
  }

  lemma MeasurementsPriced(inputs: ExteriorDetailedInputs, lineItems: seq<LineItemConfig>)
    ensures var m := MeasurementsLabor(inputs, lineItems);
            Priced(MeasurementsUses(inputs), lineItems) == m.walls + m.trimFasciaSoffit
  {
    var m := MeasurementsLabor(inputs, lineItems);
    var mc := Charges(MeasurementsUses(inputs), lineItems);
    assert mc[0] == m.walls && mc[1] == m.trimFasciaSoffit;
    assert mc == [m.walls, m.trimFasciaSoffit];
    SumPair(m.walls, m.trimFasciaSoffit);
  }

  lemma DoorsShuttersPriced(inputs: ExteriorDetailedInputs, lineItems: seq<LineItemConfig>)
    ensures Priced(DoorsShuttersUses(inputs), lineItems) == Sum(DoorsShuttersValues(DoorsShuttersLabor(inputs, lineItems)))
  {
    var dc := Charges(DoorsShuttersUses(inputs), lineItems);
    var d := DoorsShuttersLabor(inputs, lineItems);
    assert dc[0] == d.doors && dc[1] == d.shutters && dc[2] == d.doorsToRefinish;
    assert dc == DoorsShuttersValues(d);
  }

  /** The two priming charges make the one prep-work value. */
  lemma PrepWorkPriced(inputs: ExteriorDetailedInputs, lineItems: seq<LineItemConfig>)
    ensures Priced(PrepWorkUses(inputs), lineItems) == PrepWorkLabor(inputs, lineItems).priming
  {
    var pc := Charges(PrepWorkUses(inputs), lineItems);
    assert pc[0] + pc[1] == PrepWorkLabor(inputs, lineItems).priming;
    assert pc == [pc[0], pc[1]];
    SumPair(pc[0], pc[1]);
  }

  lemma ReplacementsPriced(inputs: ExteriorDetailedInputs, lineItems: seq<LineItemConfig>)
    ensures Priced(ReplacementsUses(inputs), lineItems) == Sum(ReplacementsValues(ReplacementsLabor(inputs, lineItems)))
  {
    var rc := Charges(ReplacementsUses(inputs), lineItems);
    var r := ReplacementsLabor(inputs, lineItems);
    assert rc[0] == r.sidingReplacement && rc[1] == r.trimReplacement
           && rc[2] == r.soffitFasciaReplacement && rc[3] == r.bondoRepairs;
    assert rc == ReplacementsValues(r);
  }

  lemma AdditionalPriced(inputs: ExteriorDetailedInputs, lineItems: seq<LineItemConfig>)
    ensures Priced(AdditionalUses(inputs), lineItems) == Sum(AdditionalValues(AdditionalLabor(inputs, lineItems)))
  {
    var ac := Charges(AdditionalUses(inputs), lineItems);
    var a := AdditionalLabor(inputs, lineItems);
    assert ac[0] == a.deckStaining && ac[1] == a.miscPressureWashing && ac[2] == a.miscWork && ac[3] == a.miscellaneous;
    assert ac == AdditionalValues(a);
  }

  /** The charged line items are the exterior defaults, one for one and in
      order, so on the default pricing each quantity meets its default rate. */
  lemma RateUsesMatchDefaults(inputs: ExteriorDetailedInputs, i: nat)
    requires i < |ExteriorRateUses(inputs)|
    ensures |ExteriorRateUses(inputs)| == |ExteriorDefaultLineItems()|
    ensures ExteriorRateUses(inputs)[i].lineItemId == ExteriorDefaultLineItems()[i].id
    ensures GetRate(DefaultLineItems(), ExteriorRateUses(inputs)[i].lineItemId) == ExteriorDefaultLineItems()[i].rate
  {
    RateUseIds(inputs);
    assert DefaultLineItems()[|InteriorDefaultLineItems()| + i] == ExteriorDefaultLineItems()[i];
    DefaultRateOfItem(|InteriorDefaultLineItems()| + i);
  }

  lemma RateUseIds(inputs: ExteriorDetailedInputs)
    ensures |ExteriorRateUses(inputs)| == |ExteriorDefaultLineItems()|
    ensures forall i :: 0 <= i < |ExteriorRateUses(inputs)| ==>
              ExteriorRateUses(inputs)[i].lineItemId == ExteriorDefaultLineItems()[i].id
  {
    var d := ExteriorDefaultLineItems();
    var mu, du, pu := MeasurementsUses(inputs), DoorsShuttersUses(inputs), PrepWorkUses(inputs);
    var ru, au := ReplacementsUses(inputs), AdditionalUses(inputs);
    var u := ExteriorRateUses(inputs);
    forall i | 0 <= i < |u| ensures u[i].lineItemId == d[i].id {
      if i < 2 { assert u[i] == mu[i]; }
      else if i < 5 { assert u[i] == du[i - 2]; }
      else if i < 7 { assert u[i] == pu[i - 5]; }
      else if i < 11 { assert u[i] == ru[i - 7]; }
      else { assert u[i] == au[i - 11]; }
    }
  }

  // ---------------------------------------------------------------------
  // Properties of the result

  /** The breakdown reports the base labor, which is the rated sum of the
      charged quantities, and the modified labor, which is the labor of the bid. */
  lemma ExteriorDetailedBreakdownReport(inputs: ExteriorDetailedInputs, pricing: PricingSettings)
    requires ExteriorDivisible(MaterialInputsOf(inputs), pricing.exteriorCoverage)
    ensures var r := ExteriorDetailedBid(inputs, pricing);
            && r.breakdown.ExteriorDetailedDetail?
            && r.breakdown.exterior.baseLabor == Priced(ExteriorRateUses(inputs), pricing.lineItems)
            && r.breakdown.exterior.modifiedLabor == r.labor
            && r.breakdown.exterior.modifiersApplied == FiredLabels(ExteriorChain(inputs.modifiers))
  {
    BaseLaborIsPriced(inputs, pricing.lineItems);
  }

  /** Without modifiers the labor is the base labor. */
  lemma NoModifiersNoChange(inputs: ExteriorDetailedInputs, pricing: PricingSettings)
    requires ExteriorDivisible(MaterialInputsOf(inputs), pricing.exteriorCoverage)
    requires inputs.modifiers == ExteriorModifiers(false, false, false, false, false)
    ensures ExteriorDetailedBid(inputs, pricing).labor == BaseLabor(inputs, pricing.lineItems)
    ensures ExteriorDetailedBid(inputs, pricing).breakdown.exterior.modifiersApplied == []
  {
    var c := ExteriorChain(inputs.modifiers);
    AllOffIsIdentity(BaseLabor(inputs, pricing.lineItems), c);
  }

  /** The charged quantities that also drive the paint estimate. */
  lemma MaterialQuantitiesCharged(inputs: ExteriorDetailedInputs)
    ensures var uses := ExteriorRateUses(inputs);
            && uses[0].quantity == inputs.wallSqft && uses[1].quantity == inputs.trimFasciaSoffitLF
            && uses[2].quantity == inputs.doors
  {
  }

  /** With no quantities the base labor is zero, and so is the labor. */
  lemma EmptyJobNoLabor(inputs: ExteriorDetailedInputs, lineItems: seq<LineItemConfig>)
    requires forall i :: 0 <= i < |ExteriorRateUses(inputs)| ==> ExteriorRateUses(inputs)[i].quantity == 0.0
    ensures Applied(BaseLabor(inputs, lineItems), ExteriorChain(inputs.modifiers)) == 0.0
  {
    BaseLaborIsPriced(inputs, lineItems);
    PricedZero(ExteriorRateUses(inputs), lineItems);
    AppliedIsScaling(BaseLabor(inputs, lineItems), ExteriorChain(inputs.modifiers));
  }

  /** A job with no quantities costs nothing: no labor, no materials, no profit. */
  lemma EmptyJobCostsNothing(inputs: ExteriorDetailedInputs, pricing: PricingSettings)
    requires ExteriorDivisible(MaterialInputsOf(inputs), pricing.exteriorCoverage)
    requires forall i :: 0 <= i < |ExteriorRateUses(inputs)| ==> ExteriorRateUses(inputs)[i].quantity == 0.0
    ensures var r := ExteriorDetailedBid(inputs, pricing);
            r.labor == 0.0 && r.materials.items == [] && r.profit == 0.0 && r.total == 0.0
  {
    var r := ExteriorDetailedBid(inputs, pricing);
    EmptyJobNoLabor(inputs, pricing.lineItems);
    MaterialQuantitiesCharged(inputs);
    ExteriorMaterialsShape(MaterialInputsOf(inputs), pricing);
    assert r.labor + r.materials.totalCost == 0.0;
  }

  /** Non-negative quantities and rates give a non-negative labor. */
  lemma LaborNonNegative(inputs: ExteriorDetailedInputs, lineItems: seq<LineItemConfig>)
    requires forall i :: 0 <= i < |ExteriorRateUses(inputs)| ==> ExteriorRateUses(inputs)[i].quantity >= 0.0
    requires forall i :: 0 <= i < |lineItems| ==> lineItems[i].rate >= 0.0
    ensures Applied(BaseLabor(inputs, lineItems), ExteriorChain(inputs.modifiers)) >= 0.0
  {
    BaseLaborIsPriced(inputs, lineItems);
    PricedNonNegative(ExteriorRateUses(inputs), lineItems);
    ExteriorPreservesNonNegative(BaseLabor(inputs, lineItems), inputs.modifiers);
  }

  /** Non-negative quantities, rates and paint prices with positive coverage
      give non-negative labor and materials, a profit between 35% and 60% of
      the subtotal, and a total no smaller than the subtotal. */
  lemma ExteriorDetailedNonNegative(inputs: ExteriorDetailedInputs, pricing: PricingSettings)
    requires forall i :: 0 <= i < |ExteriorRateUses(inputs)| ==> ExteriorRateUses(inputs)[i].quantity >= 0.0
    requires forall i :: 0 <= i < |pricing.lineItems| ==> pricing.lineItems[i].rate >= 0.0
    requires var c := pricing.exteriorCoverage;
             c.wallSqftPerGallon > 0.0 && c.trimLfPerGallon > 0.0 && c.doorGallonsPerDoor >= 0.0
    requires pricing.exteriorPaint.Price(inputs.paintType) >= 0.0
    ensures var r := ExteriorDetailedBid(inputs, pricing);
            var subtotal := r.labor + r.materials.totalCost;
            && r.labor >= 0.0 && r.materials.totalCost >= 0.0
            && 0.35 * subtotal <= r.profit <= 0.60 * subtotal
            && r.total >= subtotal >= 0.0
  {
    var r := ExteriorDetailedBid(inputs, pricing);
    LaborNonNegative(inputs, pricing.lineItems);
    MaterialQuantitiesCharged(inputs);
    ExteriorMaterialsNonNegative(MaterialInputsOf(inputs), pricing);
    ProfitBounds(r.labor + r.materials.totalCost, inputs.markup);
    TotalIsMarkedUp(r.labor + r.materials.totalCost, inputs.markup);
  }

  /** A job with siding only costs its area at the siding rate. */
  lemma SidingOnlyPriced(inputs: ExteriorDetailedInputs, lineItems: seq<LineItemConfig>)
    requires forall i :: 1 <= i < |ExteriorRateUses(inputs)| ==> ExteriorRateUses(inputs)[i].quantity == 0.0
    ensures Priced(ExteriorRateUses(inputs), lineItems) == inputs.wallSqft * GetRate(lineItems, "ext-wall-sqft")
  {
    var uses := ExteriorRateUses(inputs);
    PricedPrefix(uses, lineItems, 1);
    assert uses[..1][0] == uses[0] == RateUse("ext-wall-sqft", inputs.wallSqft);
    var c := Charges(uses[..1], lineItems);
    assert c == [c[0]];
    SumSingleton(c[0]);
  }

  /** On the default rates, 1000 sq ft of siding and nothing else is $700 of base labor. */
  lemma DefaultBaseLaborExample(inputs: ExteriorDetailedInputs)
    requires inputs.wallSqft == 1000.0
    requires forall i :: 1 <= i < |ExteriorRateUses(inputs)| ==> ExteriorRateUses(inputs)[i].quantity == 0.0
    ensures BaseLabor(inputs, DefaultLineItems()) == 700.0
  {
    BaseLaborIsPriced(inputs, DefaultLineItems());
    SidingOnlyPriced(inputs, DefaultLineItems());
    DefaultSidingRate();
  }

  /** The worked job on the default pricing: 1000 sq ft of siding only,
      SuperPaint, 40% markup, no modifiers. Labor $700, five gallons for
      $175, profit $350, total $1,225. */
  lemma DefaultPricingExample(inputs: ExteriorDetailedInputs, pricing: PricingSettings)
    requires pricing.lineItems == DefaultLineItems()
    requires pricing.exteriorCoverage.wallSqftPerGallon == 200.0
    requires ExteriorDivisible(MaterialInputsOf(inputs), pricing.exteriorCoverage)
    requires pricing.exteriorPaint.superPaint == 35.0
    requires inputs.wallSqft == 1000.0
    requires forall i :: 1 <= i < |ExteriorRateUses(inputs)| ==> ExteriorRateUses(inputs)[i].quantity == 0.0
    requires inputs.paintType == SuperPaint && inputs.markup == 40
    requires inputs.modifiers == ExteriorModifiers(false, false, false, false, false)
    ensures var r := ExteriorDetailedBid(inputs, pricing);
            r.labor == 700.0 && r.materials.totalCost == 175.0 && r.profit == 350.0 && r.total == 1225.0
  {
    var r := ExteriorDetailedBid(inputs, pricing);
    DefaultBaseLaborExample(inputs);
    NoModifiersNoChange(inputs, pricing);
    assert r.labor == 700.0;
    MaterialQuantitiesCharged(inputs);
    ExteriorMaterialsDefaultExample(MaterialInputsOf(inputs), pricing);
    assert r.materials.totalCost == 175.0;
    FortyPercent(875.0);
  }
}

/** The interior detailed calculator: per-category labor from line-item
    rates, the multiplicative modifiers, paint materials, and markup on
    labor plus materials. */
module InteriorDetailed {
  import opened Seqs
  import opened CalculatorTypes
  import opened SettingsTypes
  import opened LineItemRates
  import opened ModifierApplications
  import opened MaterialCalculations
  import opened DefaultPricing

  // ---------------------------------------------------------------------
  // The categories of labor, each quantity priced at its line item's rate

  function MeasurementsLabor(inputs: InteriorDetailedInputs, lineItems: seq<LineItemConfig>): InteriorMeasurementsLabor
  {
    InteriorMeasurementsLabor(
      walls := inputs.wallSqft * GetRate(lineItems, "int-wall-sqft"),
      ceilings := inputs.ceilingSqft * GetRate(lineItems, "int-ceiling-sqft"),
      trim := inputs.trimLF * GetRate(lineItems, "int-trim-lf"))
  }

  function DoorsCabinetsLabor(inputs: InteriorDetailedInputs, lineItems: seq<LineItemConfig>): InteriorDoorsCabinetsLabor
  {
    InteriorDoorsCabinetsLabor(
      doors := inputs.doors * GetRate(lineItems, "int-door"),
      cabinetDoors := inputs.cabinetDoors * GetRate(lineItems, "int-cabinet-door"),
      cabinetDrawers := inputs.cabinetDrawers * GetRate(lineItems, "int-cabinet-drawer"),
      newCabinetDoors := inputs.newCabinetDoors * GetRate(lineItems, "int-new-cabinet-door"),
      newCabinetDrawers := inputs.newCabinetDrawers * GetRate(lineItems, "int-new-cabinet-drawer"))
  }

  /** Priming is charged both per linear foot and per square foot. */
  function PrepWorkLabor(inputs: InteriorDetailedInputs, lineItems: seq<LineItemConfig>): InteriorPrepWorkLabor
  {
    InteriorPrepWorkLabor(
      wallpaperRemoval := inputs.wallpaperRemovalSqft * GetRate(lineItems, "int-wallpaper-removal-sqft"),
      priming := inputs.primingLF * GetRate(lineItems, "int-priming-lf")
                 + inputs.primingSqft * GetRate(lineItems, "int-priming-sqft"),
      drywallReplacement := inputs.drywallReplacementSqft * GetRate(lineItems, "int-drywall-replacement-sqft"),
      popcornRemoval := inputs.popcornRemovalSqft * GetRate(lineItems, "int-popcorn-removal-sqft"),
      wallTextureRemoval := inputs.wallTextureRemovalSqft * GetRate(lineItems, "int-wall-texture-removal-sqft"),
      trimReplacement := inputs.trimReplacementLF * GetRate(lineItems, "int-trim-replacement-lf"),
      drywallRepairs := inputs.drywallRepairs * GetRate(lineItems, "int-drywall-repair"))
  }

  function AdditionalLabor(inputs: InteriorDetailedInputs, lineItems: seq<LineItemConfig>): InteriorAdditionalLabor
  {
    InteriorAdditionalLabor(
      colorsAboveThree := inputs.colorsAboveThree * GetRate(lineItems, "int-color-above-three"),
      accentWalls := inputs.accentWalls * GetRate(lineItems, "int-accent-wall"),
      miscWork := inputs.miscWorkHours * GetRate(lineItems, "int-misc-work-hour"),
      miscellaneous := inputs.miscellaneousDollars * GetRate(lineItems, "int-miscellaneous-dollars"))
  }

  /** `Object.values` of each category record, in field order. */
  function DoorsCabinetsValues(d: InteriorDoorsCabinetsLabor): seq<real>
  {
    [d.doors, d.cabinetDoors, d.cabinetDrawers, d.newCabinetDoors, d.newCabinetDrawers]
  }

  function PrepWorkValues(p: InteriorPrepWorkLabor): seq<real>
  {
    [p.wallpaperRemoval, p.priming, p.drywallReplacement, p.popcornRemoval, p.wallTextureRemoval,
     p.trimReplacement, p.drywallRepairs]
  }

  function AdditionalValues(a: InteriorAdditionalLabor): seq<real>
  {
    [a.colorsAboveThree, a.accentWalls, a.miscWork, a.miscellaneous]
  }

  /** The accumulated `baseLabor`: measurements, then the reduced sum of each further category. */
  function BaseLabor(inputs: InteriorDetailedInputs, lineItems: seq<LineItemConfig>): real
  {
    var m := MeasurementsLabor(inputs, lineItems);
    0.0 + (m.walls + m.ceilings + m.trim)
    + Sum(DoorsCabinetsValues(DoorsCabinetsLabor(inputs, lineItems)))
    + Sum(PrepWorkValues(PrepWorkLabor(inputs, lineItems)))
    + Sum(AdditionalValues(AdditionalLabor(inputs, lineItems)))
  }

  /** The material quantities the detailed inputs forward to the estimator. */
  function MaterialInputsOf(inputs: InteriorDetailedInputs): InteriorMaterialInputs
  {
    InteriorMaterialInputs(inputs.wallSqft, inputs.ceilingSqft, inputs.trimLF,
                           inputs.cabinetDoors, inputs.newCabinetDoors, inputs.paintType)
  }

  /** What `calculateInteriorDetailed` returns (the timestamp aside): the
      base labor scaled by the enabled modifiers, the paint estimate of the
      forwarded quantities, and labor + materials marked up. */
  function InteriorDetailedBid(inputs: InteriorDetailedInputs, pricing: PricingSettings): (r: BidResult)
    requires InteriorDivisible(MaterialInputsOf(inputs), pricing.interiorCoverage)
    ensures r.labor == Scaled(BaseLabor(inputs, pricing.lineItems), InteriorChain(inputs.modifiers))
    ensures r.materials == InteriorMaterials(MaterialInputsOf(inputs), pricing)
    ensures r.profit == Profit(r.labor + r.materials.totalCost, inputs.markup)
    ensures r.total == MarkedUpTotal(r.labor + r.materials.totalCost, inputs.markup)
  {
    var li := pricing.lineItems;
    var baseLabor := BaseLabor(inputs, li);
    var chain := InteriorChain(inputs.modifiers);
    var labor := Applied(baseLabor, chain);
    var materials := InteriorMaterials(MaterialInputsOf(inputs), pricing);
    var subtotal := labor + materials.totalCost;
    var profit := Profit(subtotal, inputs.markup);
    AppliedIsScaling(baseLabor, chain);
    TotalIsMarkedUp(subtotal, inputs.markup);
    BidResult(labor, materials, profit, subtotal + profit,
      InteriorDetailedDetail(InteriorDetailedBreakdown(
        MeasurementsLabor(inputs, li), DoorsCabinetsLabor(inputs, li), PrepWorkLabor(inputs, li),
        AdditionalLabor(inputs, li), baseLabor, FiredLabels(chain), labor)))
  }

  /** The `baseLabor +=` accumulation of `calculateInteriorDetailed`: each
      category's record and its running total, in source order. */
  method AccumulateBaseLabor(inputs: InteriorDetailedInputs, li: seq<LineItemConfig>)
    returns (baseLabor: real, measurementsLabor: InteriorMeasurementsLabor,
             doorsAndCabinetsLabor: InteriorDoorsCabinetsLabor, prepWorkLabor: InteriorPrepWorkLabor,
             additionalLabor: InteriorAdditionalLabor)
    ensures measurementsLabor == MeasurementsLabor(inputs, li)
    ensures doorsAndCabinetsLabor == DoorsCabinetsLabor(inputs, li)
    ensures prepWorkLabor == PrepWorkLabor(inputs, li)
    ensures additionalLabor == AdditionalLabor(inputs, li)
    ensures baseLabor == BaseLabor(inputs, li)
  {
    baseLabor := 0.0;

    measurementsLabor := MeasurementsLabor(inputs, li);
    baseLabor := baseLabor + (measurementsLabor.walls + measurementsLabor.ceilings + measurementsLabor.trim);

    doorsAndCabinetsLabor := DoorsCabinetsLabor(inputs, li);
    var doorsAndCabinetsTotal := SumValues(DoorsCabinetsValues(doorsAndCabinetsLabor));
    baseLabor := baseLabor + doorsAndCabinetsTotal;

    prepWorkLabor := PrepWorkLabor(inputs, li);
    var prepWorkTotal := SumValues(PrepWorkValues(prepWorkLabor));
    baseLabor := baseLabor + prepWorkTotal;

    additionalLabor := AdditionalLabor(inputs, li);
    var additionalTotal := SumValues(AdditionalValues(additionalLabor));
    baseLabor := baseLabor + additionalTotal;
  }

  /** `calculateInteriorDetailed`: accumulate the base labor category by
      category, apply the modifiers, estimate the materials, mark up. */
  method CalculateInteriorDetailed(inputs: InteriorDetailedInputs, pricing: PricingSettings)
    returns (result: BidResult)
    requires InteriorDivisible(MaterialInputsOf(inputs), pricing.interiorCoverage)
    ensures result == InteriorDetailedBid(inputs, pricing)
  {
    var baseLabor, measurementsLabor, doorsAndCabinetsLabor, prepWorkLabor, additionalLabor
      := AccumulateBaseLabor(inputs, pricing.lineItems);
    var modifiedLabor, appliedModifiers := ApplyInteriorModifiers(baseLabor, inputs.modifiers);

    var materials := CalculateInteriorMaterials(MaterialInputsOf(inputs), pricing);

    ghost var expected := InteriorDetailedBid(inputs, pricing);
    assert modifiedLabor == expected.labor;
    assert materials == expected.materials;
    var subtotal := modifiedLabor + materials.totalCost;
    var profit := Profit(subtotal, inputs.markup);
    var total := subtotal + profit;

    var breakdown := InteriorDetailedBreakdown(measurementsLabor, doorsAndCabinetsLabor, prepWorkLabor,
                                               additionalLabor, baseLabor, appliedModifiers, modifiedLabor);
    result := BidResult(modifiedLabor, materials, profit, total, InteriorDetailedDetail(breakdown));
  }

  // ---------------------------------------------------------------------
  // The reference: every charged quantity against its line item

  /** The twenty quantities the calculator charges, each with the line item
      whose rate it is charged at, category by category. */
  function InteriorRateUses(inputs: InteriorDetailedInputs): seq<RateUse>
  {
    MeasurementsUses(inputs) + DoorsCabinetsUses(inputs) + PrepWorkUses(inputs) + AdditionalUses(inputs)
  }

  function MeasurementsUses(inputs: InteriorDetailedInputs): seq<RateUse>
  {
    [ RateUse("int-wall-sqft", inputs.wallSqft),
      RateUse("int-ceiling-sqft", inputs.ceilingSqft),
      RateUse("int-trim-lf", inputs.trimLF) ]
  }

  function DoorsCabinetsUses(inputs: InteriorDetailedInputs): seq<RateUse>
  {
    [ RateUse("int-door", inputs.doors),
      RateUse("int-cabinet-door", inputs.cabinetDoors),
      RateUse("int-cabinet-drawer", inputs.cabinetDrawers),
      RateUse("int-new-cabinet-door", inputs.newCabinetDoors),
      RateUse("int-new-cabinet-drawer", inputs.newCabinetDrawers) ]
  }

  function PrepWorkUses(inputs: InteriorDetailedInputs): seq<RateUse>
  {
    [ RateUse("int-wallpaper-removal-sqft", inputs.wallpaperRemovalSqft),
      RateUse("int-priming-lf", inputs.primingLF),
      RateUse("int-priming-sqft", inputs.primingSqft),
      RateUse("int-drywall-replacement-sqft", inputs.drywallReplacementSqft),
      RateUse("int-popcorn-removal-sqft", inputs.popcornRemovalSqft),
      RateUse("int-wall-texture-removal-sqft", inputs.wallTextureRemovalSqft),
      RateUse("int-trim-replacement-lf", inputs.trimReplacementLF),
      RateUse("int-drywall-repair", inputs.drywallRepairs) ]
  }

  function AdditionalUses(inputs: InteriorDetailedInputs): seq<RateUse>
  {
    [ RateUse("int-color-above-three", inputs.colorsAboveThree),
      RateUse("int-accent-wall", inputs.accentWalls),
      RateUse("int-misc-work-hour", inputs.miscWorkHours),
      RateUse("int-miscellaneous-dollars", inputs.miscellaneousDollars) ]
  }

  /** The base labor is exactly the sum of quantity × rate over the twenty
      charged line items: no quantity is dropped or counted twice. */
  lemma BaseLaborIsPriced(inputs: InteriorDetailedInputs, lineItems: seq<LineItemConfig>)
    ensures BaseLabor(inputs, lineItems) == Priced(InteriorRateUses(inputs), lineItems)
  {
    var mu, du, pu, au := MeasurementsUses(inputs), DoorsCabinetsUses(inputs), PrepWorkUses(inputs), AdditionalUses(inputs);
    ChargesConcat(mu + du + pu, au, lineItems);
    ChargesConcat(mu + du, pu, lineItems);
    ChargesConcat(mu, du, lineItems);
    var mc, dc, pc, ac := Charges(mu, lineItems), Charges(du, lineItems), Charges(pu, lineItems), Charges(au, lineItems);
    SumConcat(mc + dc + pc, ac);
    SumConcat(mc + dc, pc);
    SumConcat(mc, dc);
    MeasurementsPriced(inputs, lineItems);
    DoorsCabinetsPriced(inputs, lineItems);
    PrepWorkPriced(inputs, lineItems);
    AdditionalPriced(inputs, lineItems);
  }

  lemma MeasurementsPriced(inputs: InteriorDetailedInputs, lineItems: seq<LineItemConfig>)
    ensures var m := MeasurementsLabor(inputs, lineItems);
            Priced(MeasurementsUses(inputs), lineItems) == m.walls + m.ceilings + m.trim
  {
    var m := MeasurementsLabor(inputs, lineItems);
    var mc := Charges(MeasurementsUses(inputs), lineItems);
    assert mc[0] == m.walls && mc[1] == m.ceilings && mc[2] == m.trim;
    assert mc == [m.walls] + [m.ceilings, m.trim];
    SumConcat([m.walls], [m.ceilings, m.trim]);
    SumSingleton(m.walls);
    SumPair(m.ceilings, m.trim);
  }

  lemma DoorsCabinetsPriced(inputs: InteriorDetailedInputs, lineItems: seq<LineItemConfig>)
    ensures Priced(DoorsCabinetsUses(inputs), lineItems) == Sum(DoorsCabinetsValues(DoorsCabinetsLabor(inputs, lineItems)))
  {
    var dc := Charges(DoorsCabinetsUses(inputs), lineItems);
    var d := DoorsCabinetsLabor(inputs, lineItems);
    assert dc[0] == d.doors && dc[1] == d.cabinetDoors && dc[2] == d.cabinetDrawers
           && dc[3] == d.newCabinetDoors && dc[4] == d.newCabinetDrawers;
    assert dc == DoorsCabinetsValues(d);
  }

  lemma AdditionalPriced(inputs: InteriorDetailedInputs, lineItems: seq<LineItemConfig>)
    ensures Priced(AdditionalUses(inputs), lineItems) == Sum(AdditionalValues(AdditionalLabor(inputs, lineItems)))
  {
    var ac := Charges(AdditionalUses(inputs), lineItems);
    var a := AdditionalLabor(inputs, lineItems);
    assert ac[0] == a.colorsAboveThree && ac[1] == a.accentWalls && ac[2] == a.miscWork && ac[3] == a.miscellaneous;
    assert ac == AdditionalValues(a);
  }

  /** The two priming charges make one value of the prep-work category. */
  lemma PrepWorkPriced(inputs: InteriorDetailedInputs, lineItems: seq<LineItemConfig>)
    ensures Priced(PrepWorkUses(inputs), lineItems) == Sum(PrepWorkValues(PrepWorkLabor(inputs, lineItems)))
  {
    var pc := Charges(PrepWorkUses(inputs), lineItems);
    var p := PrepWorkLabor(inputs, lineItems);
    var pw := PrepWorkValues(p);
    assert pc[0] == p.wallpaperRemoval && pc[1] + pc[2] == p.priming;
    assert pc[3] == p.drywallReplacement && pc[4] == p.popcornRemoval && pc[5] == p.wallTextureRemoval
           && pc[6] == p.trimReplacement && pc[7] == p.drywallRepairs;
    assert pc == [pc[0]] + [pc[1], pc[2]] + pc[3..];
    assert pw == [pw[0]] + [pw[1]] + pc[3..];
    SumConcat([pc[0]] + [pc[1], pc[2]], pc[3..]);
    SumConcat([pc[0]], [pc[1], pc[2]]);
    SumConcat([pw[0]] + [pw[1]], pc[3..]);
    SumConcat([pw[0]], [pw[1]]);
    SumPair(pc[1], pc[2]);
    SumSingleton(pw[1]);
  }

  /** The charged line items are the interior defaults, one for one and in
      order, so on the default pricing each quantity meets its default rate. */
  lemma RateUsesMatchDefaults(inputs: InteriorDetailedInputs, i: nat)
    requires i < |InteriorRateUses(inputs)|
    ensures |InteriorRateUses(inputs)| == |InteriorDefaultLineItems()|
    ensures InteriorRateUses(inputs)[i].lineItemId == InteriorDefaultLineItems()[i].id
    ensures GetRate(DefaultLineItems(), InteriorRateUses(inputs)[i].lineItemId) == InteriorDefaultLineItems()[i].rate
  {
    RateUseIds(inputs);
    assert DefaultLineItems()[i] == InteriorDefaultLineItems()[i];
    DefaultRateOfItem(i);
  }

  lemma RateUseIds(inputs: InteriorDetailedInputs)
    ensures |InteriorRateUses(inputs)| == |InteriorDefaultLineItems()|
    ensures forall i :: 0 <= i < |InteriorRateUses(inputs)| ==>
              InteriorRateUses(inputs)[i].lineItemId == InteriorDefaultLineItems()[i].id
  {
    var d := InteriorDefaultLineItems();
    var mu, du, pu, au := MeasurementsUses(inputs), DoorsCabinetsUses(inputs), PrepWorkUses(inputs), AdditionalUses(inputs);
    var u := InteriorRateUses(inputs);
    forall i | 0 <= i < |u| ensures u[i].lineItemId == d[i].id {
      if i < 3 { assert u[i] == mu[i]; }
      else if i < 8 { assert u[i] == du[i - 3]; }
      else if i < 16 { assert u[i] == pu[i - 8]; }
      else { assert u[i] == au[i - 16]; }
    }
  }

  lemma PrepIds(inputs: InteriorDetailedInputs)
    ensures forall i :: 0 <= i < |PrepWorkUses(inputs)| ==> PrepWorkUses(inputs)[i].lineItemId == InteriorDefaultLineItems()[8 + i].id
  {
  }

  // ---------------------------------------------------------------------
  // Properties of the result

  /** The breakdown reports the base labor, which is the rated sum of the
      charged quantities, and the modified labor, which is the labor of the bid. */
  lemma InteriorDetailedBreakdownReport(inputs: InteriorDetailedInputs, pricing: PricingSettings)
    requires InteriorDivisible(MaterialInputsOf(inputs), pricing.interiorCoverage)
    ensures var r := InteriorDetailedBid(inputs, pricing);
            && r.breakdown.InteriorDetailedDetail?
            && r.breakdown.interior.baseLabor == Priced(InteriorRateUses(inputs), pricing.lineItems)
            && r.breakdown.interior.modifiedLabor == r.labor
            && r.breakdown.interior.modifiersApplied == FiredLabels(InteriorChain(inputs.modifiers))
  {
    BaseLaborIsPriced(inputs, pricing.lineItems);
  }

  /** Without modifiers the labor is the base labor. */
  lemma NoModifiersNoChange(inputs: InteriorDetailedInputs, pricing: PricingSettings)
    requires InteriorDivisible(MaterialInputsOf(inputs), pricing.interiorCoverage)
    requires inputs.modifiers == InteriorModifiers(false, false, false, false, false)
    ensures InteriorDetailedBid(inputs, pricing).labor == BaseLabor(inputs, pricing.lineItems)
    ensures InteriorDetailedBid(inputs, pricing).breakdown.interior.modifiersApplied == []
  {
    var c := InteriorChain(inputs.modifiers);
    AllOffIsIdentity(BaseLabor(inputs, pricing.lineItems), c);
  }

  /** The charged quantities that also drive the paint estimate. */
  lemma MaterialQuantitiesCharged(inputs: InteriorDetailedInputs)
    ensures var uses := InteriorRateUses(inputs);
            && uses[0].quantity == inputs.wallSqft && uses[1].quantity == inputs.ceilingSqft
            && uses[2].quantity == inputs.trimLF && uses[4].quantity == inputs.cabinetDoors
            && uses[6].quantity == inputs.newCabinetDoors
  {
  }

  /** With no quantities the base labor is zero, and so is the labor. */
  lemma EmptyJobNoLabor(inputs: InteriorDetailedInputs, lineItems: seq<LineItemConfig>)
    requires forall i :: 0 <= i < |InteriorRateUses(inputs)| ==> InteriorRateUses(inputs)[i].quantity == 0.0
    ensures Applied(BaseLabor(inputs, lineItems), InteriorChain(inputs.modifiers)) == 0.0
  {
    BaseLaborIsPriced(inputs, lineItems);
    PricedZero(InteriorRateUses(inputs), lineItems);
    AppliedIsScaling(BaseLabor(inputs, lineItems), InteriorChain(inputs.modifiers));
  }

  /** A job with no quantities costs nothing: no labor, no materials, no profit. */
  lemma EmptyJobCostsNothing(inputs: InteriorDetailedInputs, pricing: PricingSettings)
    requires InteriorDivisible(MaterialInputsOf(inputs), pricing.interiorCoverage)
    requires forall i :: 0 <= i < |InteriorRateUses(inputs)| ==> InteriorRateUses(inputs)[i].quantity == 0.0
    ensures var r := InteriorDetailedBid(inputs, pricing);
            r.labor == 0.0 && r.materials.items == [] && r.profit == 0.0 && r.total == 0.0
  {
    var r := InteriorDetailedBid(inputs, pricing);
    EmptyJobNoLabor(inputs, pricing.lineItems);
    MaterialQuantitiesCharged(inputs);
    InteriorMaterialsShape(MaterialInputsOf(inputs), pricing);
    assert r.labor + r.materials.totalCost == 0.0;
  }

  /** Non-negative quantities and rates give a non-negative labor. */
  lemma LaborNonNegative(inputs: InteriorDetailedInputs, lineItems: seq<LineItemConfig>)
    requires forall i :: 0 <= i < |InteriorRateUses(inputs)| ==> InteriorRateUses(inputs)[i].quantity >= 0.0
    requires forall i :: 0 <= i < |lineItems| ==> lineItems[i].rate >= 0.0
    ensures Applied(BaseLabor(inputs, lineItems), InteriorChain(inputs.modifiers)) >= 0.0
  {
    BaseLaborIsPriced(inputs, lineItems);
    PricedNonNegative(InteriorRateUses(inputs), lineItems);
    InteriorPreservesNonNegative(BaseLabor(inputs, lineItems), inputs.modifiers);
  }

  /** Non-negative quantities, rates and paint prices with positive coverage
      give non-negative labor and materials, a profit between 35% and 60% of
      the subtotal, and a total no smaller than the subtotal. */
  lemma InteriorDetailedNonNegative(inputs: InteriorDetailedInputs, pricing: PricingSettings)
    requires forall i :: 0 <= i < |InteriorRateUses(inputs)| ==> InteriorRateUses(inputs)[i].quantity >= 0.0
    requires forall i :: 0 <= i < |pricing.lineItems| ==> pricing.lineItems[i].rate >= 0.0
    requires var c := pricing.interiorCoverage;
             c.wallSqftPerGallon > 0.0 && c.ceilingSqftPerGallon > 0.0 && c.trimLfPerGallon > 0.0
             && c.cabinetGallonsPerDoor >= 0.0
    requires pricing.interiorPaint.Price(inputs.paintType) >= 0.0
    ensures var r := InteriorDetailedBid(inputs, pricing);
            var subtotal := r.labor + r.materials.totalCost;
            && r.labor >= 0.0 && r.materials.totalCost >= 0.0
            && 0.35 * subtotal <= r.profit <= 0.60 * subtotal
            && r.total >= subtotal >= 0.0
  {
    var r := InteriorDetailedBid(inputs, pricing);
    LaborNonNegative(inputs, pricing.lineItems);
    MaterialQuantitiesCharged(inputs);
    InteriorMaterialsNonNegative(MaterialInputsOf(inputs), pricing);
    ProfitBounds(r.labor + r.materials.totalCost, inputs.markup);
    TotalIsMarkedUp(r.labor + r.materials.totalCost, inputs.markup);
  }

  /** On the default rates, 1000 sq ft of walls and of ceilings and 100 ft
      of trim, with nothing else, is $1,000 + $500 + $75 of base labor. */
  lemma DefaultBaseLaborExample(inputs: InteriorDetailedInputs)
    requires inputs.wallSqft == 1000.0 && inputs.ceilingSqft == 1000.0 && inputs.trimLF == 100.0
    requires forall i :: 3 <= i < |InteriorRateUses(inputs)| ==> InteriorRateUses(inputs)[i].quantity == 0.0
    ensures BaseLabor(inputs, DefaultLineItems()) == 1575.0
  {
    var li := DefaultLineItems();
    BaseLaborIsPriced(inputs, li);
    MeasurementsOnlyPriced(inputs, li);
    MeasurementsPriced(inputs, li);
    DefaultInteriorMeasurementRates();
  }

  /** With nothing but walls, ceilings and trim, only the measurement charges count. */
  lemma MeasurementsOnlyPriced(inputs: InteriorDetailedInputs, lineItems: seq<LineItemConfig>)
    requires forall i :: 3 <= i < |InteriorRateUses(inputs)| ==> InteriorRateUses(inputs)[i].quantity == 0.0
    ensures Priced(InteriorRateUses(inputs), lineItems) == Priced(MeasurementsUses(inputs), lineItems)
  {
    var uses, mu := InteriorRateUses(inputs), MeasurementsUses(inputs);
    PricedPrefix(uses, lineItems, 3);
    assert uses[..3] == mu by {
      forall k | 0 <= k < 3 ensures uses[k] == mu[k] { }
    }
  }

  /** The worked job on the default pricing: walls and ceilings of 1000 sq ft,
      100 ft of trim, SuperPaint, 40% markup, no modifiers. Labor $1,575,
      materials $315 (nine gallons at $35), profit $756, total $2,646. */
  lemma DefaultPricingExample(inputs: InteriorDetailedInputs, pricing: PricingSettings)
    requires pricing.lineItems == DefaultLineItems()
    requires var c := pricing.interiorCoverage;
             c.wallSqftPerGallon == 250.0 && c.ceilingSqftPerGallon == 250.0 && c.trimLfPerGallon == 100.0
    requires pricing.interiorPaint.superPaint == 35.0
    requires inputs.wallSqft == 1000.0 && inputs.ceilingSqft == 1000.0 && inputs.trimLF == 100.0
    requires forall i :: 3 <= i < |InteriorRateUses(inputs)| ==> InteriorRateUses(inputs)[i].quantity == 0.0
    requires inputs.paintType == SuperPaint && inputs.markup == 40
    requires inputs.modifiers == InteriorModifiers(false, false, false, false, false)
    ensures var r := InteriorDetailedBid(inputs, pricing);
            r.labor == 1575.0 && r.materials.totalCost == 315.0 && r.profit == 756.0 && r.total == 2646.0
  {
    var r := InteriorDetailedBid(inputs, pricing);
    DefaultBaseLaborExample(inputs);
    NoModifiersNoChange(inputs, pricing);
    assert r.labor == 1575.0;
    MaterialQuantitiesCharged(inputs);
    InteriorMaterialsDefaultExample(MaterialInputsOf(inputs), pricing);
    assert r.materials.totalCost == 315.0;
    FortyPercent(1890.0);
  }
}

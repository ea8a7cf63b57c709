/** The calculator vocabulary: paint types, markup options, calculator
    kinds, the per-calculator input records, material line items and the
    result record with a per-calculator breakdown. */
module CalculatorTypes {

  datatype PaintType = ProMar | SuperPaint | Duration | Emerald

  /** Exterior work offers every paint type except ProMar. */
  type ExteriorPaintType = p: PaintType | p != ProMar witness SuperPaint

  /** The text a paint type interpolates to in material item names. */
  function PaintTypeName(p: PaintType): (r: string)
    ensures |r| > 0
  {
    match p
    case ProMar => "ProMar"
    case SuperPaint => "SuperPaint"
    case Duration => "Duration"
    case Emerald => "Emerald"
  }

  /** The markup percentages a bid may carry. */
  predicate IsMarkupPercentage(m: int)
  {
    m == 35 || m == 40 || m == 45 || m == 50 || m == 55 || m == 60
  }

  type MarkupPercentage = m: nat | IsMarkupPercentage(m) witness 40

  /** The markup fraction applied to the subtotal (`markup / 100`). */
  function MarkupFraction(m: MarkupPercentage): real
  {
    m as real / 100.0
  }

  /** Every markup option yields a profit fraction between 35% and 60%. */
  lemma MarkupFractionBounds(m: MarkupPercentage)
    ensures 0.35 <= MarkupFraction(m) <= 0.60
  {
    assert IsMarkupPercentage(m);
    assert 35.0 <= m as real <= 60.0;
  }

  /** The profit on a subtotal (`subtotal * (markup / 100)`). */
  function Profit(subtotal: real, m: MarkupPercentage): real
  {
    subtotal * MarkupFraction(m)
  }

  /** The subtotal marked up by the percentage. */
  function MarkedUpTotal(subtotal: real, m: MarkupPercentage): real
  {
    subtotal * (1.0 + MarkupFraction(m))
  }

  /** Adding the profit to the subtotal marks the subtotal up. */
  lemma TotalIsMarkedUp(subtotal: real, m: MarkupPercentage)
    ensures subtotal + Profit(subtotal, m) == MarkedUpTotal(subtotal, m)
  {
  }

  /** On a non-negative subtotal the profit is between 35% and 60% of it,
      and the marked-up total is no smaller than the subtotal. */
  lemma ProfitBounds(subtotal: real, m: MarkupPercentage)
    requires subtotal >= 0.0
    ensures 0.35 * subtotal <= Profit(subtotal, m) <= 0.60 * subtotal
    ensures MarkedUpTotal(subtotal, m) >= subtotal
  {
    MarkupFractionBounds(m);
    var f := MarkupFraction(m);
    assert subtotal * f >= subtotal * 0.35;
    assert subtotal * f <= subtotal * 0.60;
    assert subtotal * (1.0 + f) == subtotal + subtotal * f;
  }

  /** At 40% the profit is 0.4 of the subtotal and the total 1.4 of it. */
  lemma FortyPercent(subtotal: real)
    ensures Profit(subtotal, 40) == 0.4 * subtotal
    ensures MarkedUpTotal(subtotal, 40) == 1.4 * subtotal
  {
  }

  /** Multiplication distributes over a sum of two areas. */
  lemma Distributes(a: real, b: real, rate: real)
    ensures (a + b) * rate == a * rate + b * rate
  {
  }

  /** Scaling by a non-negative factor keeps the order of two areas. */
  lemma ScaleMonotone(a: real, b: real, factor: real)
    requires a <= b && factor >= 0.0
    ensures a * factor <= b * factor
  {
    assert b * factor - a * factor == (b - a) * factor;
  }

  /** Marking up two subtotals separately yields the profit of their sum. */
  lemma ProfitAdditive(x: real, y: real, m: MarkupPercentage)
    ensures Profit(x + y, m) == Profit(x, m) + Profit(y, m)
  {
    var f := MarkupFraction(m);
    assert (x + y) * f == x * f + y * f;
  }

  datatype CalculatorType =
    | InteriorSqftCalculator
    | InteriorDetailedCalculator
    | ExteriorSqftCalculator
    | ExteriorDetailedCalculator

  predicate IsSqftCalculator(t: CalculatorType)
  {
    t == InteriorSqftCalculator || t == ExteriorSqftCalculator
  }

  datatype InteriorSqftOption = WallsOnly | TrimOnly | CeilingsOnly | Complete

  datatype ExteriorSqftOption = FullExterior | ExteriorTrimOnly

  /** One purchased paint line: whole gallons at a per-gallon price. */
  datatype MaterialItem = MaterialItem(name: string, quantity: int, pricePerGallon: real, cost: real)

  datatype MaterialBreakdown = MaterialBreakdown(items: seq<MaterialItem>, totalCost: real)

  datatype InteriorSqftInputs = InteriorSqftInputs(
    houseSquareFootage: real,
    pricingOption: InteriorSqftOption,
    markup: MarkupPercentage)

  datatype InteriorSqftAutoCalcs = InteriorSqftAutoCalcs(wallSqft: real, ceilingSqft: real, trimLF: real)

  datatype InteriorModifiers = InteriorModifiers(
    heavilyFurnished: bool,
    emptyHouse: bool,
    extensivePrep: bool,
    additionalCoat: bool,
    oneCoat: bool)

  datatype InteriorDetailedInputs = InteriorDetailedInputs(
    // Measurements
    wallSqft: real,
    ceilingSqft: real,
    trimLF: real,
    // Doors and cabinets
    doors: real,
    cabinetDoors: real,
    cabinetDrawers: real,
    newCabinetDoors: real,
    newCabinetDrawers: real,
    // Additional items
    colorsAboveThree: real,
    // Prep work
    wallpaperRemovalSqft: real,
    primingLF: real,
    primingSqft: real,
    drywallReplacementSqft: real,
    popcornRemovalSqft: real,
    wallTextureRemovalSqft: real,
    trimReplacementLF: real,
    drywallRepairs: real,
    // Miscellaneous
    accentWalls: real,
    miscWorkHours: real,
    miscellaneousDollars: real,
    // Paint, markup and modifiers
    paintType: PaintType,
    markup: MarkupPercentage,
    modifiers: InteriorModifiers)

  datatype ExteriorModifiers = ExteriorModifiers(
    threeStory: bool,
    extensivePrep: bool,
    hardTerrain: bool,
    additionalCoat: bool,
    oneCoat: bool)

  datatype ExteriorSqftInputs = ExteriorSqftInputs(
    houseSquareFootage: real,
    pricingOption: ExteriorSqftOption,
    markup: MarkupPercentage)

  datatype ExteriorSqftAutoCalcs = ExteriorSqftAutoCalcs(sidingSqft: real, trimLF: real)

  datatype ExteriorDetailedInputs = ExteriorDetailedInputs(
    // Measurements
    wallSqft: real,
    trimFasciaSoffitLF: real,
    // Doors and shutters
    doors: real,
    shutters: real,
    doorsToRefinish: real,
    // Prep work
    primingSqft: real,
    primingLF: real,
    // Replacements and repairs
    sidingReplacementSqft: real,
    trimReplacementLF: real,
    soffitFasciaReplacementLF: real,
    bondoRepairs: real,
    // Additional work
    deckStainingSqft: real,
    miscPressureWashingSqft: real,
    miscWorkHours: real,
    miscellaneousDollars: real,
    // Paint, markup and modifiers
    paintType: ExteriorPaintType,
    markup: MarkupPercentage,
    modifiers: ExteriorModifiers)

  // Interior detailed breakdown, one record per category

  datatype InteriorMeasurementsLabor = InteriorMeasurementsLabor(walls: real, ceilings: real, trim: real)

  datatype InteriorDoorsCabinetsLabor = InteriorDoorsCabinetsLabor(
    doors: real,
    cabinetDoors: real,
    cabinetDrawers: real,
    newCabinetDoors: real,
    newCabinetDrawers: real)

  datatype InteriorPrepWorkLabor = InteriorPrepWorkLabor(
    wallpaperRemoval: real,
    priming: real,
    drywallReplacement: real,
    popcornRemoval: real,
    wallTextureRemoval: real,
    trimReplacement: real,
    drywallRepairs: real)

  datatype InteriorAdditionalLabor = InteriorAdditionalLabor(
    colorsAboveThree: real,
    accentWalls: real,
    miscWork: real,
    miscellaneous: real)

  datatype InteriorDetailedBreakdown = InteriorDetailedBreakdown(
    measurements: InteriorMeasurementsLabor,
    doorsAndCabinets: InteriorDoorsCabinetsLabor,
    prepWork: InteriorPrepWorkLabor,
    additional: InteriorAdditionalLabor,
    baseLabor: real,
    modifiersApplied: seq<string>,
    modifiedLabor: real)

  // Exterior detailed breakdown, one record per category

  datatype ExteriorMeasurementsLabor = ExteriorMeasurementsLabor(walls: real, trimFasciaSoffit: real)

  datatype ExteriorDoorsShuttersLabor = ExteriorDoorsShuttersLabor(
    doors: real,
    shutters: real,
    doorsToRefinish: real)

  datatype ExteriorPrepWorkLabor = ExteriorPrepWorkLabor(priming: real)

  datatype ExteriorReplacementsLabor = ExteriorReplacementsLabor(
    sidingReplacement: real,
    trimReplacement: real,
    soffitFasciaReplacement: real,
    bondoRepairs: real)

  datatype ExteriorAdditionalLabor = ExteriorAdditionalLabor(
    deckStaining: real,
    miscPressureWashing: real,
    miscWork: real,
    miscellaneous: real)

  datatype ExteriorDetailedBreakdown = ExteriorDetailedBreakdown(
    measurements: ExteriorMeasurementsLabor,
    doorsAndShutters: ExteriorDoorsShuttersLabor,
    prepWork: ExteriorPrepWorkLabor,
    replacementsAndRepairs: ExteriorReplacementsLabor,
    additional: ExteriorAdditionalLabor,
    baseLabor: real,
    modifiersApplied: seq<string>,
    modifiedLabor: real)

  /** The calculator-specific detail attached to a result, one variant per calculator. */
  datatype Breakdown =
    | InteriorSqftDetail(
        houseSquareFootage: real,
        interiorOption: InteriorSqftOption,
        interiorAuto: InteriorSqftAutoCalcs,
        markup: MarkupPercentage)
    | ExteriorSqftDetail(
        houseSquareFootage: real,
        exteriorOption: ExteriorSqftOption,
        exteriorAuto: ExteriorSqftAutoCalcs,
        markup: MarkupPercentage)
    | InteriorDetailedDetail(interior: InteriorDetailedBreakdown)
    | ExteriorDetailedDetail(exterior: ExteriorDetailedBreakdown)

  datatype BidResult = BidResult(
    labor: real,
    materials: MaterialBreakdown,
    profit: real,
    total: real,
    breakdown: Breakdown)
}

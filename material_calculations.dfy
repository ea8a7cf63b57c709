/** The materials estimator: turns surface quantities into whole gallons
    of the selected paint, one line per surface that has work, and sums
    their cost. */
module MaterialCalculations {
  import opened Seqs
  import opened CalculatorTypes
  import opened SettingsTypes

  /** `Math.ceil`: the least integer not below `x`. */
  function Ceil(x: real): (n: int)
    ensures n as real >= x
    ensures (n as real) < x + 1.0
  {
    -((-x).Floor)
  }

  datatype InteriorMaterialInputs = InteriorMaterialInputs(
    wallSqft: real,
    ceilingSqft: real,
    trimLF: real,
    cabinetDoors: real,
    newCabinetDoors: real,
    paintType: PaintType)

  datatype ExteriorMaterialInputs = ExteriorMaterialInputs(
    wallSqft: real,
    trimLF: real,
    doors: real,
    paintType: ExteriorPaintType)

  /** One surface to paint: the name suffix of its line, the input quantity
      that decides whether it is bought at all, and the fractional gallons
      that quantity needs. */
  datatype Need = Need(suffix: string, amount: real, gallons: real)

  /** A line of `gallons` whole gallons at `price` per gallon, costing gallons × price. */
  function PaintLine(name: string, gallons: int, price: real): MaterialItem
  {
    MaterialItem(name, gallons, price, gallons as real * price)
  }

  /** The lines bought for a list of needs: a need with a positive amount
      becomes one line of rounded-up gallons, in the order of the needs. */
  function LinesFor(paintName: string, price: real, needs: seq<Need>): seq<MaterialItem>
  {
    if needs == [] then []
    else LineFor(paintName, price, needs[0]) + LinesFor(paintName, price, needs[1..])
  }

  /** The line one need contributes: none unless its amount is positive. */
  function LineFor(paintName: string, price: real, n: Need): (r: seq<MaterialItem>)
    ensures |r| <= 1
  {
    if n.amount > 0.0 then [PaintLine(paintName + n.suffix, Ceil(n.gallons), price)] else []
  }

  lemma LinesForThree(paintName: string, price: real, n0: Need, n1: Need, n2: Need)
    ensures LinesFor(paintName, price, [n0, n1, n2])
            == LineFor(paintName, price, n0) + LineFor(paintName, price, n1) + LineFor(paintName, price, n2)
  {
    assert [n2][1..] == [];
    assert LinesFor(paintName, price, [n2]) == LineFor(paintName, price, n2);
    assert [n1, n2][1..] == [n2];
    assert LinesFor(paintName, price, [n1, n2]) == LineFor(paintName, price, n1) + LineFor(paintName, price, n2);
    assert [n0, n1, n2][1..] == [n1, n2];
  }

  lemma LinesForFour(paintName: string, price: real, n0: Need, n1: Need, n2: Need, n3: Need)
    ensures LinesFor(paintName, price, [n0, n1, n2, n3])
            == LineFor(paintName, price, n0) + LineFor(paintName, price, n1)
               + LineFor(paintName, price, n2) + LineFor(paintName, price, n3)
  {
    assert [n0, n1, n2, n3][1..] == [n1, n2, n3];
    LinesForThree(paintName, price, n1, n2, n3);
  }

  /** `items.reduce((sum, item) => sum + item.cost, 0)`, peeled from the right. */
  function SumCosts(items: seq<MaterialItem>): real
  {
    if items == [] then 0.0 else SumCosts(items[..|items| - 1]) + items[|items| - 1].cost
  }

  /** The gallons a surface needs at `perGallon` units per gallon. The
      division happens only for a surface with work, as the source divides
      only inside its `> 0` branch; a surface without work needs none. */
  function GallonsFor(amount: real, perGallon: real): (g: real)
    requires amount > 0.0 ==> perGallon != 0.0
    ensures amount > 0.0 ==> g * perGallon == amount
    ensures amount <= 0.0 ==> g == 0.0
  {
    if amount > 0.0 then amount / perGallon else 0.0
  }

  /** Every surface with work has a coverage rate the source can divide by. */
  predicate InteriorDivisible(inputs: InteriorMaterialInputs, c: InteriorCoverage)
  {
    && (inputs.wallSqft > 0.0 ==> c.wallSqftPerGallon != 0.0)
    && (inputs.ceilingSqft > 0.0 ==> c.ceilingSqftPerGallon != 0.0)
    && (inputs.trimLF > 0.0 ==> c.trimLfPerGallon != 0.0)
  }

  predicate ExteriorDivisible(inputs: ExteriorMaterialInputs, c: ExteriorCoverage)
  {
    && (inputs.wallSqft > 0.0 ==> c.wallSqftPerGallon != 0.0)
    && (inputs.trimLF > 0.0 ==> c.trimLfPerGallon != 0.0)
  }

  /** Interior surfaces in emission order: walls, ceilings, trim, cabinets
      (existing and new cabinet doors together). */
  function InteriorNeeds(inputs: InteriorMaterialInputs, c: InteriorCoverage): seq<Need>
    requires InteriorDivisible(inputs, c)
  {
    [ Need(" - Walls", inputs.wallSqft, GallonsFor(inputs.wallSqft, c.wallSqftPerGallon)),
      Need(" - Ceilings", inputs.ceilingSqft, GallonsFor(inputs.ceilingSqft, c.ceilingSqftPerGallon)),
      Need(" - Trim", inputs.trimLF, GallonsFor(inputs.trimLF, c.trimLfPerGallon)),
      Need(" - Cabinets", inputs.cabinetDoors + inputs.newCabinetDoors,
           (inputs.cabinetDoors + inputs.newCabinetDoors) * c.cabinetGallonsPerDoor) ]
  }

  /** Exterior surfaces in emission order: siding, trim/fascia/soffit, doors. */
  function ExteriorNeeds(inputs: ExteriorMaterialInputs, c: ExteriorCoverage): seq<Need>
    requires ExteriorDivisible(inputs, c)
  {
    [ Need(" - Siding", inputs.wallSqft, GallonsFor(inputs.wallSqft, c.wallSqftPerGallon)),
      Need(" - Trim/Fascia/Soffit", inputs.trimLF, GallonsFor(inputs.trimLF, c.trimLfPerGallon)),
      Need(" - Doors", inputs.doors, inputs.doors * c.doorGallonsPerDoor) ]
  }

  function Breakdown(items: seq<MaterialItem>): (b: MaterialBreakdown)
    ensures b.items == items && b.totalCost == SumCosts(items)
  {
    MaterialBreakdown(items, SumCosts(items))
  }

  /** What `calculateInteriorMaterials` computes. */
  function InteriorMaterials(inputs: InteriorMaterialInputs, pricing: PricingSettings): MaterialBreakdown
    requires InteriorDivisible(inputs, pricing.interiorCoverage)
  {
    Breakdown(LinesFor(PaintTypeName(inputs.paintType), pricing.interiorPaint.Price(inputs.paintType),
                       InteriorNeeds(inputs, pricing.interiorCoverage)))
  }

  /** What `calculateExteriorMaterials` computes. */
  function ExteriorMaterials(inputs: ExteriorMaterialInputs, pricing: PricingSettings): MaterialBreakdown
    requires ExteriorDivisible(inputs, pricing.exteriorCoverage)
  {
    Breakdown(LinesFor(PaintTypeName(inputs.paintType), pricing.exteriorPaint.Price(inputs.paintType),
                       ExteriorNeeds(inputs, pricing.exteriorCoverage)))
  }

  /** The `reduce` over item costs. */
  method TotalCost(items: seq<MaterialItem>) returns (total: real)
    ensures total == SumCosts(items)
  {
    total := 0.0;
    for i := 0 to |items|
      invariant total == SumCosts(items[..i])
    {
      assert items[..i + 1][..i] == items[..i];
      total := total + items[i].cost;
    }
    assert items[..|items|] == items;
  }

  /** `calculateInteriorMaterials`: one conditional push per surface, then the total. */
  method CalculateInteriorMaterials(inputs: InteriorMaterialInputs, pricing: PricingSettings)
    returns (materials: MaterialBreakdown)
    requires InteriorDivisible(inputs, pricing.interiorCoverage)
    ensures materials == InteriorMaterials(inputs, pricing)
    ensures materials.totalCost == SumCosts(materials.items)
  {
    var items: seq<MaterialItem> := [];
    var pricePerGallon := pricing.interiorPaint.Price(inputs.paintType);
    var paintName := PaintTypeName(inputs.paintType);
    var coverage := pricing.interiorCoverage;
    ghost var needs := InteriorNeeds(inputs, coverage);

    if inputs.wallSqft > 0.0 {
      var wallGallons := Ceil(inputs.wallSqft / coverage.wallSqftPerGallon);
      items := items + [MaterialItem(paintName + " - Walls", wallGallons, pricePerGallon, wallGallons as real * pricePerGallon)];
      assert items[|items| - 1] == PaintLine(paintName + needs[0].suffix, Ceil(needs[0].gallons), pricePerGallon);
    }
    assert items == LineFor(paintName, pricePerGallon, needs[0]);
    if inputs.ceilingSqft > 0.0 {
      var ceilingGallons := Ceil(inputs.ceilingSqft / coverage.ceilingSqftPerGallon);
      items := items + [MaterialItem(paintName + " - Ceilings", ceilingGallons, pricePerGallon, ceilingGallons as real * pricePerGallon)];
      assert items[|items| - 1] == PaintLine(paintName + needs[1].suffix, Ceil(needs[1].gallons), pricePerGallon);
    }
    assert items == LineFor(paintName, pricePerGallon, needs[0]) + LineFor(paintName, pricePerGallon, needs[1]);
    if inputs.trimLF > 0.0 {
      var trimGallons := Ceil(inputs.trimLF / coverage.trimLfPerGallon);
      items := items + [MaterialItem(paintName + " - Trim", trimGallons, pricePerGallon, trimGallons as real * pricePerGallon)];
      assert items[|items| - 1] == PaintLine(paintName + needs[2].suffix, Ceil(needs[2].gallons), pricePerGallon);
    }
    assert items == LineFor(paintName, pricePerGallon, needs[0]) + LineFor(paintName, pricePerGallon, needs[1])
                    + LineFor(paintName, pricePerGallon, needs[2]);
    var totalCabinetDoors := inputs.cabinetDoors + inputs.newCabinetDoors;
    if totalCabinetDoors > 0.0 {
      var cabinetGallons := Ceil(totalCabinetDoors * coverage.cabinetGallonsPerDoor);
      items := items + [MaterialItem(paintName + " - Cabinets", cabinetGallons, pricePerGallon, cabinetGallons as real * pricePerGallon)];
      assert items[|items| - 1] == PaintLine(paintName + needs[3].suffix, Ceil(needs[3].gallons), pricePerGallon);
    }
    assert items == LineFor(paintName, pricePerGallon, needs[0]) + LineFor(paintName, pricePerGallon, needs[1])
                    + LineFor(paintName, pricePerGallon, needs[2]) + LineFor(paintName, pricePerGallon, needs[3]);

    LinesForFour(paintName, pricePerGallon, needs[0], needs[1], needs[2], needs[3]);
    assert needs == [needs[0], needs[1], needs[2], needs[3]];
    var totalCost := TotalCost(items);
    materials := MaterialBreakdown(items, totalCost);
  }

  /** `calculateExteriorMaterials`: one conditional push per surface, then the total. */
  method CalculateExteriorMaterials(inputs: ExteriorMaterialInputs, pricing: PricingSettings)
    returns (materials: MaterialBreakdown)
    requires ExteriorDivisible(inputs, pricing.exteriorCoverage)
    ensures materials == ExteriorMaterials(inputs, pricing)
    ensures materials.totalCost == SumCosts(materials.items)
  {
    var items: seq<MaterialItem> := [];
    var pricePerGallon := pricing.exteriorPaint.Price(inputs.paintType);
    var paintName := PaintTypeName(inputs.paintType);
    var coverage := pricing.exteriorCoverage;
    ghost var needs := ExteriorNeeds(inputs, coverage);

    if inputs.wallSqft > 0.0 {
      var wallGallons := Ceil(inputs.wallSqft / coverage.wallSqftPerGallon);
      items := items + [MaterialItem(paintName + " - Siding", wallGallons, pricePerGallon, wallGallons as real * pricePerGallon)];
      assert items[|items| - 1] == PaintLine(paintName + needs[0].suffix, Ceil(needs[0].gallons), pricePerGallon);
    }
    assert items == LineFor(paintName, pricePerGallon, needs[0]);
    if inputs.trimLF > 0.0 {
      var trimGallons := Ceil(inputs.trimLF / coverage.trimLfPerGallon);
      items := items + [MaterialItem(paintName + " - Trim/Fascia/Soffit", trimGallons, pricePerGallon, trimGallons as real * pricePerGallon)];
      assert items[|items| - 1] == PaintLine(paintName + needs[1].suffix, Ceil(needs[1].gallons), pricePerGallon);
    }
    assert items == LineFor(paintName, pricePerGallon, needs[0]) + LineFor(paintName, pricePerGallon, needs[1]);
    if inputs.doors > 0.0 {
      var doorGallons := Ceil(inputs.doors * coverage.doorGallonsPerDoor);
      items := items + [MaterialItem(paintName + " - Doors", doorGallons, pricePerGallon, doorGallons as real * pricePerGallon)];
      assert items[|items| - 1] == PaintLine(paintName + needs[2].suffix, Ceil(needs[2].gallons), pricePerGallon);
    }
    assert items == LineFor(paintName, pricePerGallon, needs[0]) + LineFor(paintName, pricePerGallon, needs[1])
                    + LineFor(paintName, pricePerGallon, needs[2]);

    LinesForThree(paintName, pricePerGallon, needs[0], needs[1], needs[2]);
    assert needs == [needs[0], needs[1], needs[2]];
    var totalCost := TotalCost(items);
    materials := MaterialBreakdown(items, totalCost);
  }

  /** `calculateSimpleMaterials`: always exactly one line, even for zero square feet.
      The price table is the exterior one when `isExterior`, which the
      source's cast restricts to exterior paint types. */
  function CalculateSimpleMaterials(sqft: real, paintType: PaintType, coverageRate: real,
                                    pricing: PricingSettings, isExterior: bool): (b: MaterialBreakdown)
    requires coverageRate != 0.0
    requires isExterior ==> paintType != ProMar
    ensures |b.items| == 1
    ensures b.totalCost == b.items[0].cost == b.items[0].quantity as real * b.items[0].pricePerGallon
    ensures b.items[0].quantity as real >= sqft / coverageRate > b.items[0].quantity as real - 1.0
    ensures b.items[0].name == PaintTypeName(paintType) + " Paint"
    ensures b.items[0].pricePerGallon
            == if isExterior then pricing.exteriorPaint.Price(paintType) else pricing.interiorPaint.Price(paintType)
  {
    var pricePerGallon := if isExterior then pricing.exteriorPaint.Price(paintType) else pricing.interiorPaint.Price(paintType);
    var gallons := Ceil(sqft / coverageRate);
    var cost := gallons as real * pricePerGallon;
    MaterialBreakdown([MaterialItem(PaintTypeName(paintType) + " Paint", gallons, pricePerGallon, cost)], cost)
  }

  // ---------------------------------------------------------------------
  // Properties of the emitted lines

  /** Number of needs with a positive amount. */
  function PositiveCount(needs: seq<Need>): nat
  {
    if needs == [] then 0 else (if needs[0].amount > 0.0 then 1 else 0) + PositiveCount(needs[1..])
  }

  /** One line per need with a positive amount, so never more lines than needs. */
  lemma {:induction false} LinesForCount(paintName: string, price: real, needs: seq<Need>)
    ensures |LinesFor(paintName, price, needs)| == PositiveCount(needs) <= |needs|
  {
    if needs != [] {
      LinesForCount(paintName, price, needs[1..]);
    }
  }

  /** `item` is the line bought for need `n`: the need's amount is positive
      and the line holds its gallons rounded up at `price`. */
  predicate BoughtFor(item: MaterialItem, paintName: string, price: real, n: Need)
  {
    n.amount > 0.0 && item == PaintLine(paintName + n.suffix, Ceil(n.gallons), price)
  }

  /** Every line is bought for some need of the list. */
  lemma {:induction false} LinesForSound(paintName: string, price: real, needs: seq<Need>, k: nat)
    requires k < |LinesFor(paintName, price, needs)|
    ensures exists i :: 0 <= i < |needs| && BoughtFor(LinesFor(paintName, price, needs)[k], paintName, price, needs[i])
  {
    var head := LineFor(paintName, price, needs[0]);
    var rest := LinesFor(paintName, price, needs[1..]);
    if k >= |head| {
      LinesForSound(paintName, price, needs[1..], k - |head|);
      var i :| 0 <= i < |needs[1..]| && BoughtFor(rest[k - |head|], paintName, price, needs[1..][i]);
      assert BoughtFor(LinesFor(paintName, price, needs)[k], paintName, price, needs[i + 1]);
    } else {
      assert BoughtFor(LinesFor(paintName, price, needs)[k], paintName, price, needs[0]);
    }
  }

  /** Every line is at the given price, costs its gallons times that price,
      and holds the rounded-up gallons of a need with work. */
  lemma LinesForQuantities(paintName: string, price: real, needs: seq<Need>, k: nat)
    requires k < |LinesFor(paintName, price, needs)|
    ensures var item := LinesFor(paintName, price, needs)[k];
            && item.pricePerGallon == price
            && item.cost == item.quantity as real * item.pricePerGallon
            && exists i :: 0 <= i < |needs| && needs[i].amount > 0.0
                 && item.name == paintName + needs[i].suffix
                 && needs[i].gallons <= item.quantity as real < needs[i].gallons + 1.0
  {
    var item := LinesFor(paintName, price, needs)[k];
    LinesForSound(paintName, price, needs, k);
    var i :| 0 <= i < |needs| && BoughtFor(item, paintName, price, needs[i]);
    BoughtForLine(item, paintName, price, needs[i]);
    assert needs[i].amount > 0.0 && item.name == paintName + needs[i].suffix
           && needs[i].gallons <= item.quantity as real < needs[i].gallons + 1.0;
  }

  /** A line bought for a need is at the given price, costs its gallons times
      that price, and holds the need's gallons rounded up. */
  lemma BoughtForLine(item: MaterialItem, paintName: string, price: real, n: Need)
    requires BoughtFor(item, paintName, price, n)
    ensures item.pricePerGallon == price
    ensures item.cost == item.quantity as real * item.pricePerGallon
    ensures item.name == paintName + n.suffix
    ensures n.gallons <= item.quantity as real < n.gallons + 1.0
  {
  }

  /** Every need with a positive amount gets a line named after it holding its gallons rounded up. */
  lemma {:induction false} LinesForComplete(paintName: string, price: real, needs: seq<Need>, i: nat)
    requires i < |needs| && needs[i].amount > 0.0
    ensures PaintLine(paintName + needs[i].suffix, Ceil(needs[i].gallons), price) in LinesFor(paintName, price, needs)
  {
    if i > 0 {
      LinesForComplete(paintName, price, needs[1..], i - 1);
    }
  }

  /** No need with a positive amount means no lines at all. */
  lemma {:induction false} LinesForNoWork(paintName: string, price: real, needs: seq<Need>)
    requires forall i :: 0 <= i < |needs| ==> needs[i].amount <= 0.0
    ensures LinesFor(paintName, price, needs) == []
  {
    if needs != [] {
      LinesForNoWork(paintName, price, needs[1..]);
    }
  }

  /** A positive need whose gallons are positive buys at least one gallon:
      no zero-gallon line is ever emitted. */
  lemma LinesForAtLeastOneGallon(paintName: string, price: real, needs: seq<Need>, k: nat)
    requires forall i :: 0 <= i < |needs| && needs[i].amount > 0.0 ==> needs[i].gallons > 0.0
    requires k < |LinesFor(paintName, price, needs)|
    ensures LinesFor(paintName, price, needs)[k].quantity >= 1
  {
    LinesForSound(paintName, price, needs, k);
  }

  lemma {:induction false} SumCostsSnoc(items: seq<MaterialItem>, x: MaterialItem)
    ensures SumCosts(items + [x]) == SumCosts(items) + x.cost
  {
    assert (items + [x])[..|items|] == items;
  }

  lemma {:induction false} SumCostsConcat(a: seq<MaterialItem>, b: seq<MaterialItem>)
    ensures SumCosts(a + b) == SumCosts(a) + SumCosts(b)
    decreases |b|
  {
    if b == [] {
      assert a + b == a;
    } else {
      var init, last := b[..|b| - 1], b[|b| - 1];
      assert a + b == (a + init) + [last];
      assert b == init + [last];
      SumCostsSnoc(a + init, last);
      SumCostsSnoc(init, last);
      SumCostsConcat(a, init);
    }
  }

  /** With a non-negative price and non-negative gallons the total cost is non-negative. */
  lemma {:induction false} LinesForCostNonNegative(paintName: string, price: real, needs: seq<Need>)
    requires price >= 0.0
    requires forall i :: 0 <= i < |needs| ==> needs[i].gallons >= 0.0
    ensures SumCosts(LinesFor(paintName, price, needs)) >= 0.0
  {
    if needs != [] {
      var head := LineFor(paintName, price, needs[0]);
      LinesForCostNonNegative(paintName, price, needs[1..]);
      SumCostsConcat(head, LinesFor(paintName, price, needs[1..]));
      if head != [] {
        assert head == [] + [head[0]];
        SumCostsSnoc([], head[0]);
        var g := Ceil(needs[0].gallons);
        assert g >= 0;
        assert head[0].cost == g as real * price;
      }
    }
  }

  // ---------------------------------------------------------------------
  // Interior and exterior consequences

  /** At most four interior lines; none, and zero cost, when no surface has work. */
  lemma InteriorMaterialsShape(inputs: InteriorMaterialInputs, pricing: PricingSettings)
    requires InteriorDivisible(inputs, pricing.interiorCoverage)
    ensures |InteriorMaterials(inputs, pricing).items| <= 4
    ensures inputs.wallSqft <= 0.0 && inputs.ceilingSqft <= 0.0 && inputs.trimLF <= 0.0
            && inputs.cabinetDoors + inputs.newCabinetDoors <= 0.0
            ==> InteriorMaterials(inputs, pricing).items == [] && InteriorMaterials(inputs, pricing).totalCost == 0.0
  {
    var paintName, price := PaintTypeName(inputs.paintType), pricing.interiorPaint.Price(inputs.paintType);
    var needs := InteriorNeeds(inputs, pricing.interiorCoverage);
    LinesForCount(paintName, price, needs);
    if forall i :: 0 <= i < |needs| ==> needs[i].amount <= 0.0 {
      LinesForNoWork(paintName, price, needs);
    }
  }

  /** With every interior surface worked, the lines are walls, ceilings, trim, cabinets in that order. */
  lemma InteriorMaterialsOrder(inputs: InteriorMaterialInputs, pricing: PricingSettings)
    requires InteriorDivisible(inputs, pricing.interiorCoverage)
    requires inputs.wallSqft > 0.0 && inputs.ceilingSqft > 0.0 && inputs.trimLF > 0.0
    requires inputs.cabinetDoors + inputs.newCabinetDoors > 0.0
    ensures var items := InteriorMaterials(inputs, pricing).items;
            var p := PaintTypeName(inputs.paintType);
            |items| == 4 && items[0].name == p + " - Walls" && items[1].name == p + " - Ceilings"
            && items[2].name == p + " - Trim" && items[3].name == p + " - Cabinets"
  {
    var needs := InteriorNeeds(inputs, pricing.interiorCoverage);
    LinesForFour(PaintTypeName(inputs.paintType), pricing.interiorPaint.Price(inputs.paintType),
                 needs[0], needs[1], needs[2], needs[3]);
    assert needs == [needs[0], needs[1], needs[2], needs[3]];
  }

  /** Each interior line holds whole gallons covering what its surface
      needs, less than one gallon over, at the selected paint's price, and
      costs quantity × price. */
  lemma InteriorMaterialsQuantities(inputs: InteriorMaterialInputs, pricing: PricingSettings, k: nat)
    requires InteriorDivisible(inputs, pricing.interiorCoverage)
    requires k < |InteriorMaterials(inputs, pricing).items|
    ensures var item := InteriorMaterials(inputs, pricing).items[k];
            var needs := InteriorNeeds(inputs, pricing.interiorCoverage);
            && item.pricePerGallon == pricing.interiorPaint.Price(inputs.paintType)
            && item.cost == item.quantity as real * item.pricePerGallon
            && exists i :: 0 <= i < |needs| && needs[i].amount > 0.0
                 && item.name == PaintTypeName(inputs.paintType) + needs[i].suffix
                 && needs[i].gallons <= item.quantity as real < needs[i].gallons + 1.0
  {
    LinesForQuantities(PaintTypeName(inputs.paintType), pricing.interiorPaint.Price(inputs.paintType),
                       InteriorNeeds(inputs, pricing.interiorCoverage), k);
  }

  /** Every interior surface with work gets its line: surface `i` of
      walls, ceilings, trim, cabinets with a positive amount is bought as its
      gallons rounded up at the selected paint's price. */
  lemma InteriorMaterialsComplete(inputs: InteriorMaterialInputs, pricing: PricingSettings, i: nat)
    requires InteriorDivisible(inputs, pricing.interiorCoverage)
    requires i < 4 && InteriorNeeds(inputs, pricing.interiorCoverage)[i].amount > 0.0
    ensures var n := InteriorNeeds(inputs, pricing.interiorCoverage)[i];
            PaintLine(PaintTypeName(inputs.paintType) + n.suffix, Ceil(n.gallons), pricing.interiorPaint.Price(inputs.paintType))
              in InteriorMaterials(inputs, pricing).items
  {
    LinesForComplete(PaintTypeName(inputs.paintType), pricing.interiorPaint.Price(inputs.paintType),
                     InteriorNeeds(inputs, pricing.interiorCoverage), i);
  }

  /** Every exterior surface with work (siding, trim/fascia/soffit, doors) gets its line. */
  lemma ExteriorMaterialsComplete(inputs: ExteriorMaterialInputs, pricing: PricingSettings, i: nat)
    requires ExteriorDivisible(inputs, pricing.exteriorCoverage)
    requires i < 3 && ExteriorNeeds(inputs, pricing.exteriorCoverage)[i].amount > 0.0
    ensures var n := ExteriorNeeds(inputs, pricing.exteriorCoverage)[i];
            PaintLine(PaintTypeName(inputs.paintType) + n.suffix, Ceil(n.gallons), pricing.exteriorPaint.Price(inputs.paintType))
              in ExteriorMaterials(inputs, pricing).items
  {
    LinesForComplete(PaintTypeName(inputs.paintType), pricing.exteriorPaint.Price(inputs.paintType),
                     ExteriorNeeds(inputs, pricing.exteriorCoverage), i);
  }

  /** With positive coverage every interior line holds at least one gallon. */
  lemma InteriorMaterialsNoEmptyLines(inputs: InteriorMaterialInputs, pricing: PricingSettings, k: nat)
    requires var c := pricing.interiorCoverage;
             c.wallSqftPerGallon > 0.0 && c.ceilingSqftPerGallon > 0.0 && c.trimLfPerGallon > 0.0
             && c.cabinetGallonsPerDoor > 0.0
    requires k < |InteriorMaterials(inputs, pricing).items|
    ensures InteriorMaterials(inputs, pricing).items[k].quantity >= 1
  {
    var c := pricing.interiorCoverage;
    var needs := InteriorNeeds(inputs, c);
    var doors := inputs.cabinetDoors + inputs.newCabinetDoors;
    if doors > 0.0 {
      PositiveProduct(doors, c.cabinetGallonsPerDoor);
    }
    forall i | 0 <= i < |needs| && needs[i].amount > 0.0 ensures needs[i].gallons > 0.0 {
      if i == 0 {
        PositiveQuotient(inputs.wallSqft, c.wallSqftPerGallon);
      } else if i == 1 {
        PositiveQuotient(inputs.ceilingSqft, c.ceilingSqftPerGallon);
      } else if i == 2 {
        PositiveQuotient(inputs.trimLF, c.trimLfPerGallon);
      } else {
        assert needs[i] == Need(" - Cabinets", doors, doors * c.cabinetGallonsPerDoor);
      }
    }
    LinesForAtLeastOneGallon(PaintTypeName(inputs.paintType), pricing.interiorPaint.Price(inputs.paintType), needs, k);
  }

  /** Non-negative quantities, positive coverage and non-negative prices give a non-negative total. */
  lemma InteriorMaterialsNonNegative(inputs: InteriorMaterialInputs, pricing: PricingSettings)
    requires var c := pricing.interiorCoverage;
             c.wallSqftPerGallon > 0.0 && c.ceilingSqftPerGallon > 0.0 && c.trimLfPerGallon > 0.0
             && c.cabinetGallonsPerDoor >= 0.0
    requires inputs.wallSqft >= 0.0 && inputs.ceilingSqft >= 0.0 && inputs.trimLF >= 0.0
    requires inputs.cabinetDoors + inputs.newCabinetDoors >= 0.0
    requires pricing.interiorPaint.Price(inputs.paintType) >= 0.0
    ensures InteriorMaterials(inputs, pricing).totalCost >= 0.0
  {
    var c := pricing.interiorCoverage;
    var needs := InteriorNeeds(inputs, c);
    NonNegativeProduct(inputs.cabinetDoors + inputs.newCabinetDoors, c.cabinetGallonsPerDoor);
    assert forall i :: 0 <= i < |needs| ==> needs[i].gallons >= 0.0;
    LinesForCostNonNegative(PaintTypeName(inputs.paintType), pricing.interiorPaint.Price(inputs.paintType), needs);
  }

  /** At most three exterior lines; none, and zero cost, when no surface has work. */
  lemma ExteriorMaterialsShape(inputs: ExteriorMaterialInputs, pricing: PricingSettings)
    requires ExteriorDivisible(inputs, pricing.exteriorCoverage)
    ensures |ExteriorMaterials(inputs, pricing).items| <= 3
    ensures inputs.wallSqft <= 0.0 && inputs.trimLF <= 0.0 && inputs.doors <= 0.0
            ==> ExteriorMaterials(inputs, pricing).items == [] && ExteriorMaterials(inputs, pricing).totalCost == 0.0
  {
    var paintName, price := PaintTypeName(inputs.paintType), pricing.exteriorPaint.Price(inputs.paintType);
    var needs := ExteriorNeeds(inputs, pricing.exteriorCoverage);
    LinesForCount(paintName, price, needs);
    if forall i :: 0 <= i < |needs| ==> needs[i].amount <= 0.0 {
      LinesForNoWork(paintName, price, needs);
    }
  }

  /** With every exterior surface worked, the lines are siding, trim/fascia/soffit, doors in that order. */
  lemma ExteriorMaterialsOrder(inputs: ExteriorMaterialInputs, pricing: PricingSettings)
    requires ExteriorDivisible(inputs, pricing.exteriorCoverage)
    requires inputs.wallSqft > 0.0 && inputs.trimLF > 0.0 && inputs.doors > 0.0
    ensures var items := ExteriorMaterials(inputs, pricing).items;
            var p := PaintTypeName(inputs.paintType);
            |items| == 3 && items[0].name == p + " - Siding" && items[1].name == p + " - Trim/Fascia/Soffit"
            && items[2].name == p + " - Doors"
  {
    var needs := ExteriorNeeds(inputs, pricing.exteriorCoverage);
    LinesForThree(PaintTypeName(inputs.paintType), pricing.exteriorPaint.Price(inputs.paintType),
                  needs[0], needs[1], needs[2]);
    assert needs == [needs[0], needs[1], needs[2]];
  }

  /** Each exterior line holds whole gallons covering its surface, less than
      one gallon over, at the selected paint's price. */
  lemma ExteriorMaterialsQuantities(inputs: ExteriorMaterialInputs, pricing: PricingSettings, k: nat)
    requires ExteriorDivisible(inputs, pricing.exteriorCoverage)
    requires k < |ExteriorMaterials(inputs, pricing).items|
    ensures var item := ExteriorMaterials(inputs, pricing).items[k];
            var needs := ExteriorNeeds(inputs, pricing.exteriorCoverage);
            && item.pricePerGallon == pricing.exteriorPaint.Price(inputs.paintType)
            && item.cost == item.quantity as real * item.pricePerGallon
            && exists i :: 0 <= i < |needs| && needs[i].amount > 0.0
                 && item.name == PaintTypeName(inputs.paintType) + needs[i].suffix
                 && needs[i].gallons <= item.quantity as real < needs[i].gallons + 1.0
  {
    LinesForQuantities(PaintTypeName(inputs.paintType), pricing.exteriorPaint.Price(inputs.paintType),
                       ExteriorNeeds(inputs, pricing.exteriorCoverage), k);
  }

  /** Non-negative quantities, positive coverage and non-negative prices give a non-negative total. */
  lemma ExteriorMaterialsNonNegative(inputs: ExteriorMaterialInputs, pricing: PricingSettings)
    requires var c := pricing.exteriorCoverage;
             c.wallSqftPerGallon > 0.0 && c.trimLfPerGallon > 0.0 && c.doorGallonsPerDoor >= 0.0
    requires inputs.wallSqft >= 0.0 && inputs.trimLF >= 0.0 && inputs.doors >= 0.0
    requires pricing.exteriorPaint.Price(inputs.paintType) >= 0.0
    ensures ExteriorMaterials(inputs, pricing).totalCost >= 0.0
  {
    var c := pricing.exteriorCoverage;
    var needs := ExteriorNeeds(inputs, c);
    NonNegativeProduct(inputs.doors, c.doorGallonsPerDoor);
    assert forall i :: 0 <= i < |needs| ==> needs[i].gallons >= 0.0;
    LinesForCostNonNegative(PaintTypeName(inputs.paintType), pricing.exteriorPaint.Price(inputs.paintType), needs);
  }

  lemma PositiveProduct(x: real, y: real)
    requires x > 0.0 && y > 0.0
    ensures x * y > 0.0
  {
  }

  lemma PositiveQuotient(x: real, y: real)
    requires x > 0.0 && y > 0.0
    ensures x / y > 0.0
  {
  }

  lemma NonNegativeProduct(x: real, y: real)
    requires x >= 0.0 && y >= 0.0
    ensures x * y >= 0.0
  {
  }

  /** With the default interior coverage, 1000 sq ft of walls and of
      ceilings and 100 ft of trim in SuperPaint at $35 buy 4 + 4 + 1 gallons
      for $315. */
  lemma InteriorMaterialsDefaultExample(inputs: InteriorMaterialInputs, pricing: PricingSettings)
    requires var c := pricing.interiorCoverage;
             c.wallSqftPerGallon == 250.0 && c.ceilingSqftPerGallon == 250.0 && c.trimLfPerGallon == 100.0
    requires pricing.interiorPaint.superPaint == 35.0
    requires inputs.wallSqft == 1000.0 && inputs.ceilingSqft == 1000.0 && inputs.trimLF == 100.0
    requires inputs.cabinetDoors == 0.0 && inputs.newCabinetDoors == 0.0 && inputs.paintType == SuperPaint
    ensures var m := InteriorMaterials(inputs, pricing);
            && |m.items| == 3
            && m.items[0].quantity == 4 && m.items[1].quantity == 4 && m.items[2].quantity == 1
            && m.totalCost == 315.0
  {
    var c := pricing.interiorCoverage;
    var needs := InteriorNeeds(inputs, c);
    var name, price := PaintTypeName(SuperPaint), pricing.interiorPaint.Price(SuperPaint);
    assert 1000.0 / 250.0 == 4.0 && 100.0 / 100.0 == 1.0;
    assert needs[0] == Need(" - Walls", 1000.0, 4.0);
    assert needs[1] == Need(" - Ceilings", 1000.0, 4.0);
    assert needs[2] == Need(" - Trim", 100.0, 1.0);
    assert needs[3].amount == 0.0;
    assert Ceil(4.0) == 4 && Ceil(1.0) == 1;
    var walls, ceilings, trim :=
      PaintLine(name + " - Walls", 4, price), PaintLine(name + " - Ceilings", 4, price), PaintLine(name + " - Trim", 1, price);
    assert LineFor(name, price, needs[0]) == [walls];
    assert LineFor(name, price, needs[1]) == [ceilings];
    assert LineFor(name, price, needs[2]) == [trim];
    assert LineFor(name, price, needs[3]) == [];
    LinesForFour(name, price, needs[0], needs[1], needs[2], needs[3]);
    assert needs == [needs[0], needs[1], needs[2], needs[3]];
    var items := LinesFor(name, price, needs);
    assert items == [walls, ceilings, trim];
    ThreeCosts(walls, ceilings, trim);
  }

  /** With the default exterior coverage, 1000 sq ft of siding in SuperPaint
      at $35 buys 5 gallons for $175. */
  lemma ExteriorMaterialsDefaultExample(inputs: ExteriorMaterialInputs, pricing: PricingSettings)
    requires pricing.exteriorCoverage.wallSqftPerGallon == 200.0
    requires pricing.exteriorPaint.superPaint == 35.0
    requires inputs.wallSqft == 1000.0 && inputs.trimLF == 0.0 && inputs.doors == 0.0 && inputs.paintType == SuperPaint
    ensures var m := ExteriorMaterials(inputs, pricing);
            && |m.items| == 1 && m.items[0].quantity == 5 && m.totalCost == 175.0
  {
    var c := pricing.exteriorCoverage;
    var needs := ExteriorNeeds(inputs, c);
    var name, price := PaintTypeName(SuperPaint), pricing.exteriorPaint.Price(SuperPaint);
    assert 1000.0 / 200.0 == 5.0;
    assert needs[0] == Need(" - Siding", 1000.0, 5.0);
    assert needs[1].amount == 0.0 && needs[2].amount == 0.0;
    assert Ceil(5.0) == 5;
    var siding := PaintLine(name + " - Siding", 5, price);
    assert LineFor(name, price, needs[0]) == [siding];
    LinesForThree(name, price, needs[0], needs[1], needs[2]);
    assert needs == [needs[0], needs[1], needs[2]];
    var items := LinesFor(name, price, needs);
    assert items == [siding];
    assert items[..0] == [];
    assert SumCosts(items) == siding.cost;
    assert price == 35.0;
  }

  lemma ThreeCosts(a: MaterialItem, b: MaterialItem, c: MaterialItem)
    ensures SumCosts([a, b, c]) == a.cost + b.cost + c.cost
  {
    assert [a, b, c][..2] == [a, b];
    assert [a, b][..1] == [a];
    assert [a][..0] == [];
    assert SumCosts([a]) == a.cost;
    assert SumCosts([a, b]) == a.cost + b.cost;
  }

  /** 251 square feet at 250 per gallon buys two gallons, not one. */
  lemma CeilingDivisionExample()
    ensures Ceil(251.0 / 250.0) == 2
  {
  }
}

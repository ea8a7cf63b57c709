/** The pricing configuration a fresh installation starts from, and the
    default company settings that wrap it. */
module DefaultPricing {
  import opened Seqs
  import opened CalculatorTypes
  import opened SettingsTypes
  import opened LineItemRates

  /** The 20 built-in interior detailed line items, section by section. */
  function InteriorDefaultLineItems(): seq<LineItemConfig>
  {
    InteriorMeasurementItems() + InteriorDoorsCabinetsItems() + InteriorPrepWorkItems() + InteriorAdditionalItems()
  }

  /** The interior measurements section. */
  function InteriorMeasurementItems(): seq<LineItemConfig>
  {
    [
    LineItemConfig("int-wall-sqft", "Wall Sq Ft", 1.00, Sqft, "int-measurements", true, 1),
    LineItemConfig("int-ceiling-sqft", "Ceiling Sq Ft", 0.50, Sqft, "int-measurements", true, 2),
    LineItemConfig("int-trim-lf", "Trim LF", 0.75, Lf, "int-measurements", true, 3)
    ]
  }

  /** The interior doors and cabinets section. */
  function InteriorDoorsCabinetsItems(): seq<LineItemConfig>
  {
    [
    LineItemConfig("int-door", "Doors", 40.0, Each, "int-doors-cabinets", true, 1),
    LineItemConfig("int-cabinet-door", "Cabinet Doors", 40.0, Each, "int-doors-cabinets", true, 2),
    LineItemConfig("int-cabinet-drawer", "Cabinet Drawers", 40.0, Each, "int-doors-cabinets", true, 3),
    LineItemConfig("int-new-cabinet-door", "New Cabinet Doors", 60.0, Each, "int-doors-cabinets", true, 4),
    LineItemConfig("int-new-cabinet-drawer", "New Cabinet Drawers", 60.0, Each, "int-doors-cabinets", true, 5)
    ]
  }

  /** The interior prep work section. */
  function InteriorPrepWorkItems(): seq<LineItemConfig>
  {
    [
    LineItemConfig("int-wallpaper-removal-sqft", "Wallpaper Removal", 2.00, Sqft, "int-prep-work", true, 1),
    LineItemConfig("int-priming-lf", "Priming (Linear Feet)", 0.50, Lf, "int-prep-work", true, 2),
    LineItemConfig("int-priming-sqft", "Priming (Sq Ft)", 0.50, Sqft, "int-prep-work", true, 3),
    LineItemConfig("int-drywall-replacement-sqft", "Drywall Replacement", 2.00, Sqft, "int-prep-work", true, 4),
    LineItemConfig("int-popcorn-removal-sqft", "Popcorn Removal", 1.25, Sqft, "int-prep-work", true, 5),
    LineItemConfig("int-wall-texture-removal-sqft", "Wall Texture Removal", 1.00, Sqft, "int-prep-work", true, 6),
    LineItemConfig("int-trim-replacement-lf", "Trim Replacement", 4.00, Lf, "int-prep-work", true, 7),
    LineItemConfig("int-drywall-repair", "Drywall Repairs", 40.0, Each, "int-prep-work", true, 8)
    ]
  }

  /** The interior additional work section. */
  function InteriorAdditionalItems(): seq<LineItemConfig>
  {
    [
    LineItemConfig("int-color-above-three", "Colors Above Three", 75.0, Each, "int-additional", true, 1),
    LineItemConfig("int-accent-wall", "Accent Walls", 60.0, Each, "int-additional", true, 2),
    LineItemConfig("int-misc-work-hour", "Miscellaneous Work", 50.0, Hour, "int-additional", true, 3),
    LineItemConfig("int-miscellaneous-dollars", "Miscellaneous (Custom)", 1.0, Dollars, "int-additional", true, 4)
    ]
  }

  /** The 15 built-in exterior detailed line items, section by section. */
  function ExteriorDefaultLineItems(): seq<LineItemConfig>
  {
    ExteriorMeasurementItems() + ExteriorDoorsShuttersItems() + ExteriorPrepWorkItems()
    + ExteriorReplacementsItems() + ExteriorAdditionalItems()
  }

  /** The exterior measurements section. */
  function ExteriorMeasurementItems(): seq<LineItemConfig>
  {
    [
    LineItemConfig("ext-wall-sqft", "Wall/Siding Sq Ft", 0.70, Sqft, "ext-measurements", true, 1),
    LineItemConfig("ext-trim-fascia-soffit-lf", "Trim/Fascia/Soffit LF", 0.50, Lf, "ext-measurements", true, 2)
    ]
  }

  /** The exterior doors and shutters section. */
  function ExteriorDoorsShuttersItems(): seq<LineItemConfig>
  {
    [
    LineItemConfig("ext-door", "Doors", 40.0, Each, "ext-doors-shutters", true, 1),
    LineItemConfig("ext-shutter", "Shutters", 25.0, Each, "ext-doors-shutters", true, 2),
    LineItemConfig("ext-door-refinish", "Doors to Refinish", 100.0, Each, "ext-doors-shutters", true, 3)
    ]
  }

  /** The exterior prep work section. */
  function ExteriorPrepWorkItems(): seq<LineItemConfig>
  {
    [
    LineItemConfig("ext-priming-sqft", "Priming (Sq Ft)", 0.50, Sqft, "ext-prep-work", true, 1),
    LineItemConfig("ext-priming-lf", "Priming (Linear Feet)", 0.50, Lf, "ext-prep-work", true, 2)
    ]
  }

  /** The exterior replacements and repairs section. */
  function ExteriorReplacementsItems(): seq<LineItemConfig>
  {
    [
    LineItemConfig("ext-siding-replacement-sqft", "Siding Replacement", 2.00, Sqft, "ext-replacements-repairs", true, 1),
    LineItemConfig("ext-trim-replacement-lf", "Trim Replacement", 4.00, Lf, "ext-replacements-repairs", true, 2),
    LineItemConfig("ext-soffit-fascia-replacement-lf", "Soffit/Fascia Replacement", 8.00, Lf, "ext-replacements-repairs", true, 3),
    LineItemConfig("ext-bondo-repair", "Bondo Repairs", 30.0, Each, "ext-replacements-repairs", true, 4)
    ]
  }

  /** The exterior additional work section. */
  function ExteriorAdditionalItems(): seq<LineItemConfig>
  {
    [
    LineItemConfig("ext-deck-staining-sqft", "Deck Staining", 1.00, Sqft, "ext-additional", true, 1),
    LineItemConfig("ext-misc-pressure-washing-sqft", "Pressure Washing", 0.50, Sqft, "ext-additional", true, 2),
    LineItemConfig("ext-misc-work-hour", "Miscellaneous Work", 50.0, Hour, "ext-additional", true, 3),
    LineItemConfig("ext-miscellaneous-dollars", "Miscellaneous (Custom)", 1.0, Dollars, "ext-additional", true, 4)
    ]
  }

  /** The 35 built-in line items: interior first, then exterior. */
  function DefaultLineItems(): seq<LineItemConfig>
  {
    InteriorDefaultLineItems() + ExteriorDefaultLineItems()
  }

  /** The nine built-in sections: four interior, then five exterior. */
  function DefaultSections(): seq<SectionConfig>
  {
    [
    SectionConfig("int-measurements", "Measurements", InteriorDetailedCalculator, true, 1),
    SectionConfig("int-doors-cabinets", "Doors & Cabinets", InteriorDetailedCalculator, true, 2),
    SectionConfig("int-prep-work", "Prep Work", InteriorDetailedCalculator, true, 3),
    SectionConfig("int-additional", "Additional Work", InteriorDetailedCalculator, true, 4),
    SectionConfig("ext-measurements", "Measurements", ExteriorDetailedCalculator, true, 1),
    SectionConfig("ext-doors-shutters", "Doors & Shutters", ExteriorDetailedCalculator, true, 2),
    SectionConfig("ext-prep-work", "Prep Work", ExteriorDetailedCalculator, true, 3),
    SectionConfig("ext-replacements-repairs", "Replacements & Repairs", ExteriorDetailedCalculator, true, 4),
    SectionConfig("ext-additional", "Additional Work", ExteriorDetailedCalculator, true, 5)
    ]
  }

  /** The default square-footage rates per sq ft of house area. */
  function DefaultInteriorSqftRates(): InteriorSqftRates
  {
    InteriorSqftRates(wallsOnly := 1.75, trimOnly := 1.25, ceilingsOnly := 1.00, complete := 2.50)
  }

  function DefaultExteriorSqftRates(): ExteriorSqftRates
  {
    ExteriorSqftRates(fullExterior := 2.00, trimOnly := 1.35)
  }

  /** The default coverage rates: square feet or linear feet per gallon, and
      gallons per cabinet or entry door. */
  function DefaultInteriorCoverage(): InteriorCoverage
  {
    InteriorCoverage(wallSqftPerGallon := 250.0, ceilingSqftPerGallon := 250.0,
                     trimLfPerGallon := 100.0, cabinetGallonsPerDoor := 0.10)
  }

  function DefaultExteriorCoverage(): ExteriorCoverage
  {
    ExteriorCoverage(wallSqftPerGallon := 200.0, trimLfPerGallon := 100.0, doorGallonsPerDoor := 0.10)
  }

  /** The markup percentages offered by default. */
  function DefaultMarkupOptions(): seq<int>
  {
    [35, 40, 45, 50, 55, 60]
  }

  /** `createDefaultPricingSettings`: 35 default line items with distinct
      ids, each filed under one of 9 default sections with distinct ids, and
      positive coverage rates throughout. */
  function CreateDefaultPricingSettings(): (p: PricingSettings)
    ensures |p.lineItems| == 35 && DistinctIds(p.lineItems)
    ensures forall i :: 0 <= i < |p.lineItems| ==> p.lineItems[i].isDefault && FiledUnder(p.lineItems[i], p.sections)
    ensures |p.sections| == 9
    ensures forall i :: 0 <= i < |p.sections| ==> p.sections[i].isDefault
    ensures forall i, j :: 0 <= i < j < |p.sections| ==> p.sections[i].id != p.sections[j].id
    ensures var c := p.interiorCoverage;
            c.wallSqftPerGallon > 0.0 && c.ceilingSqftPerGallon > 0.0
            && c.trimLfPerGallon > 0.0 && c.cabinetGallonsPerDoor > 0.0
    ensures var c := p.exteriorCoverage;
            c.wallSqftPerGallon > 0.0 && c.trimLfPerGallon > 0.0 && c.doorGallonsPerDoor > 0.0
  {
    DefaultLineItemIdsDistinct();
    DefaultLineItemsFiled();
    DefaultSectionsDistinct();
    DefaultCoveragePositive();
    PricingSettings(
      interiorSqft := DefaultInteriorSqftRates(),
      exteriorSqft := DefaultExteriorSqftRates(),
      interiorPaint := InteriorPaintPrices(proMar := 25.0, superPaint := 35.0, duration := 45.0, emerald := 65.0),
      exteriorPaint := ExteriorPaintPrices(superPaint := 35.0, duration := 45.0, emerald := 65.0),
      interiorCoverage := DefaultInteriorCoverage(),
      exteriorCoverage := DefaultExteriorCoverage(),
      interiorMultipliers := InteriorMultipliers(wall := 3.2, ceiling := 1.0, trim := 0.35),
      exteriorMultipliers := ExteriorMultipliers(siding := 1.4, trim := 0.30),
      markupOptions := DefaultMarkupOptions(),
      crewRates := [
        CrewRate(2, 1000.0, "Default: $1,000/day"),
        CrewRate(3, 1500.0, "Default: $1,500/day"),
        CrewRate(4, 2000.0, "Default: $2,000/day")
      ],
      jobDurationFormulaText := "Estimated Days = Labor Cost ÷ Daily Rate",
      jobDurationExampleText :=
        "For example, if labor cost is $3,000 and you select a 2-person crew ($1,000/day), the estimated duration is 3 days.",
      lineItems := DefaultLineItems(),
      sections := DefaultSections())
  }

  /** `getDefaultCompanySettings`: placeholder branding, no logo, around the default pricing. */
  function GetDefaultCompanySettings(): (s: CompanySettings)
    ensures s.pricing == CreateDefaultPricingSettings()
    ensures s.logo.None?
  {
    CompanySettings(
      name := "Your Painting Company",
      address := "123 Main Street, City, State 12345",
      phone := "(555) 123-4567",
      email := "contact@yourcompany.com",
      website := Some("www.yourcompany.com"),
      licenseNumber := Some(""),
      logo := None,
      pricing := CreateDefaultPricingSettings())
  }

  /** Pairwise-distinct ids. */
  predicate DistinctIds(items: seq<LineItemConfig>)
  {
    forall i, j :: 0 <= i < j < |items| ==> items[i].id != items[j].id
  }

  /** Ids whose first characters differ keep two distinct-id lists distinct when joined. */
  lemma {:induction false} DistinctIdsConcat(a: seq<LineItemConfig>, b: seq<LineItemConfig>, ca: char, cb: char)
    requires DistinctIds(a) && DistinctIds(b) && ca != cb
    requires forall i :: 0 <= i < |a| ==> |a[i].id| > 0 && a[i].id[0] == ca
    requires forall j :: 0 <= j < |b| ==> |b[j].id| > 0 && b[j].id[0] == cb
    ensures DistinctIds(a + b)
  {
    var s := a + b;
    forall i, j | 0 <= i < j < |s| ensures s[i].id != s[j].id {
      if j < |a| {
        assert s[i] == a[i] && s[j] == a[j];
      } else if i >= |a| {
        assert s[i] == b[i - |a|] && s[j] == b[j - |a|];
      } else {
        assert s[i] == a[i] && s[j] == b[j - |a|];
        assert s[i].id[0] != s[j].id[0];
      }
    }
  }

  /** No id of `a` occurs in `b`. */
  predicate IdsDisjoint(a: seq<LineItemConfig>, b: seq<LineItemConfig>)
  {
    forall i, j :: 0 <= i < |a| && 0 <= j < |b| ==> a[i].id != b[j].id
  }

  /** Two distinct-id lists with no id in common join into a distinct-id list. */
  lemma DistinctIdsJoin(a: seq<LineItemConfig>, b: seq<LineItemConfig>)
    requires DistinctIds(a) && DistinctIds(b) && IdsDisjoint(a, b)
    ensures DistinctIds(a + b)
  {
    var s := a + b;
    forall i, j | 0 <= i < j < |s| ensures s[i].id != s[j].id {
      if j < |a| {
        assert s[i] == a[i] && s[j] == a[j];
      } else if i >= |a| {
        assert s[i] == b[i - |a|] && s[j] == b[j - |a|];
      } else {
        assert s[i] == a[i] && s[j] == b[j - |a|];
      }
    }
  }

  lemma IdsDisjointJoin(a: seq<LineItemConfig>, b: seq<LineItemConfig>, c: seq<LineItemConfig>)
    requires IdsDisjoint(a, c) && IdsDisjoint(b, c)
    ensures IdsDisjoint(a + b, c)
  {
    var s := a + b;
    forall i, j | 0 <= i < |s| && 0 <= j < |c| ensures s[i].id != c[j].id {
      if i < |a| { assert s[i] == a[i]; } else { assert s[i] == b[i - |a|]; }
    }
  }

  lemma InteriorMeasurementIdsDistinct()
    ensures DistinctIds(InteriorMeasurementItems())
  {
  }

  lemma InteriorDoorsCabinetsIdsDistinct()
    ensures DistinctIds(InteriorDoorsCabinetsItems())
  {
  }

  lemma InteriorPrepWorkIdsDistinct()
    ensures DistinctIds(InteriorPrepWorkItems())
  {
  }

  lemma InteriorAdditionalIdsDistinct()
    ensures DistinctIds(InteriorAdditionalItems())
  {
  }

  lemma InteriorMeasurementDoorsCabinetsDisjoint()
    ensures IdsDisjoint(InteriorMeasurementItems(), InteriorDoorsCabinetsItems())
  {
  }

  lemma InteriorMeasurementPrepWorkDisjoint()
    ensures IdsDisjoint(InteriorMeasurementItems(), InteriorPrepWorkItems())
  {
  }

  lemma InteriorMeasurementAdditionalDisjoint()
    ensures IdsDisjoint(InteriorMeasurementItems(), InteriorAdditionalItems())
  {
  }

  lemma InteriorDoorsCabinetsPrepWorkDisjoint()
    ensures IdsDisjoint(InteriorDoorsCabinetsItems(), InteriorPrepWorkItems())
  {
  }

  lemma InteriorDoorsCabinetsAdditionalDisjoint()
    ensures IdsDisjoint(InteriorDoorsCabinetsItems(), InteriorAdditionalItems())
  {
  }

  lemma InteriorPrepWorkAdditionalDisjoint()
    ensures IdsDisjoint(InteriorPrepWorkItems(), InteriorAdditionalItems())
  {
  }

  lemma InteriorDefaultIdsDistinct()
    ensures DistinctIds(InteriorDefaultLineItems())
    ensures forall i :: 0 <= i < |InteriorDefaultLineItems()| ==>
              |InteriorDefaultLineItems()[i].id| > 0 && InteriorDefaultLineItems()[i].id[0] == 'i'
  {
    var m, d, p, a := InteriorMeasurementItems(), InteriorDoorsCabinetsItems(), InteriorPrepWorkItems(), InteriorAdditionalItems();
    InteriorMeasurementIdsDistinct();
    InteriorDoorsCabinetsIdsDistinct();
    InteriorPrepWorkIdsDistinct();
    InteriorAdditionalIdsDistinct();
    InteriorMeasurementDoorsCabinetsDisjoint();
    InteriorMeasurementPrepWorkDisjoint();
    InteriorMeasurementAdditionalDisjoint();
    InteriorDoorsCabinetsPrepWorkDisjoint();
    InteriorDoorsCabinetsAdditionalDisjoint();
    InteriorPrepWorkAdditionalDisjoint();
    DistinctIdsJoin(m, d);
    IdsDisjointJoin(m, d, p);
    DistinctIdsJoin(m + d, p);
    IdsDisjointJoin(m, d, a);
    IdsDisjointJoin(m + d, p, a);
    DistinctIdsJoin(m + d + p, a);
  }

  lemma ExteriorMeasurementIdsDistinct()
    ensures DistinctIds(ExteriorMeasurementItems())
  {
  }

  lemma ExteriorDoorsShuttersIdsDistinct()
    ensures DistinctIds(ExteriorDoorsShuttersItems())
  {
  }

  lemma ExteriorPrepWorkIdsDistinct()
    ensures DistinctIds(ExteriorPrepWorkItems())
  {
  }

  lemma ExteriorReplacementsIdsDistinct()
    ensures DistinctIds(ExteriorReplacementsItems())
  {
  }

  lemma ExteriorAdditionalIdsDistinct()
    ensures DistinctIds(ExteriorAdditionalItems())
  {
  }

  lemma ExteriorMeasurementDoorsShuttersDisjoint()
    ensures IdsDisjoint(ExteriorMeasurementItems(), ExteriorDoorsShuttersItems())
  {
  }

  lemma ExteriorMeasurementPrepWorkDisjoint()
    ensures IdsDisjoint(ExteriorMeasurementItems(), ExteriorPrepWorkItems())
  {
  }

  lemma ExteriorMeasurementReplacementsDisjoint()
    ensures IdsDisjoint(ExteriorMeasurementItems(), ExteriorReplacementsItems())
  {
  }

  lemma ExteriorMeasurementAdditionalDisjoint()
    ensures IdsDisjoint(ExteriorMeasurementItems(), ExteriorAdditionalItems())
  {
  }

  lemma ExteriorDoorsShuttersPrepWorkDisjoint()
    ensures IdsDisjoint(ExteriorDoorsShuttersItems(), ExteriorPrepWorkItems())
  {
  }

  lemma ExteriorDoorsShuttersReplacementsDisjoint()
    ensures IdsDisjoint(ExteriorDoorsShuttersItems(), ExteriorReplacementsItems())
  {
  }

  lemma ExteriorDoorsShuttersAdditionalDisjoint()
    ensures IdsDisjoint(ExteriorDoorsShuttersItems(), ExteriorAdditionalItems())
  {
  }

  lemma ExteriorPrepWorkReplacementsDisjoint()
    ensures IdsDisjoint(ExteriorPrepWorkItems(), ExteriorReplacementsItems())
  {
  }

  lemma ExteriorPrepWorkAdditionalDisjoint()
    ensures IdsDisjoint(ExteriorPrepWorkItems(), ExteriorAdditionalItems())
  {
  }

  lemma ExteriorReplacementsAdditionalDisjoint()
    ensures IdsDisjoint(ExteriorReplacementsItems(), ExteriorAdditionalItems())
  {
  }

  lemma ExteriorDefaultIdsDistinct()
    ensures DistinctIds(ExteriorDefaultLineItems())
    ensures forall i :: 0 <= i < |ExteriorDefaultLineItems()| ==>
              |ExteriorDefaultLineItems()[i].id| > 0 && ExteriorDefaultLineItems()[i].id[0] == 'e'
  {
    var m, d, p, r, a := ExteriorMeasurementItems(), ExteriorDoorsShuttersItems(), ExteriorPrepWorkItems(),
                         ExteriorReplacementsItems(), ExteriorAdditionalItems();
    ExteriorMeasurementIdsDistinct();
    ExteriorDoorsShuttersIdsDistinct();
    ExteriorPrepWorkIdsDistinct();
    ExteriorReplacementsIdsDistinct();
    ExteriorAdditionalIdsDistinct();
    ExteriorMeasurementDoorsShuttersDisjoint();
    ExteriorMeasurementPrepWorkDisjoint();
    ExteriorMeasurementReplacementsDisjoint();
    ExteriorMeasurementAdditionalDisjoint();
    ExteriorDoorsShuttersPrepWorkDisjoint();
    ExteriorDoorsShuttersReplacementsDisjoint();
    ExteriorDoorsShuttersAdditionalDisjoint();
    ExteriorPrepWorkReplacementsDisjoint();
    ExteriorPrepWorkAdditionalDisjoint();
    ExteriorReplacementsAdditionalDisjoint();
    DistinctIdsJoin(m, d);
    IdsDisjointJoin(m, d, p);
    DistinctIdsJoin(m + d, p);
    IdsDisjointJoin(m, d, r);
    IdsDisjointJoin(m + d, p, r);
    DistinctIdsJoin(m + d + p, r);
    IdsDisjointJoin(m, d, a);
    IdsDisjointJoin(m + d, p, a);
    IdsDisjointJoin(m + d + p, r, a);
    DistinctIdsJoin(m + d + p + r, a);
  }

  /** No two of the 35 default line items share an id, so first-match lookup
      is unambiguous on the defaults. */
  lemma DefaultLineItemIdsDistinct()
    ensures |DefaultLineItems()| == 35
    ensures DistinctIds(DefaultLineItems())
  {
    InteriorDefaultIdsDistinct();
    ExteriorDefaultIdsDistinct();
    DistinctIdsConcat(InteriorDefaultLineItems(), ExteriorDefaultLineItems(), 'i', 'e');
  }

  /** Some section carries the id the item names as its category. */
  predicate FiledUnder(item: LineItemConfig, sections: seq<SectionConfig>)
  {
    exists j :: 0 <= j < |sections| && sections[j].id == item.category
  }

  /** Every default line item is marked default and filed under a default section. */
  lemma DefaultLineItemsFiled()
    ensures forall i :: 0 <= i < |DefaultLineItems()| ==>
              DefaultLineItems()[i].isDefault && FiledUnder(DefaultLineItems()[i], DefaultSections())
  {
    var a, b, secs := InteriorDefaultLineItems(), ExteriorDefaultLineItems(), DefaultSections();
    forall i | 0 <= i < |a| ensures a[i].isDefault && FiledUnder(a[i], secs) {
      var c := a[i].category;
      assert c == secs[0].id || c == secs[1].id || c == secs[2].id || c == secs[3].id;
    }
    forall i | 0 <= i < |b| ensures b[i].isDefault && FiledUnder(b[i], secs) {
      var c := b[i].category;
      assert c == secs[4].id || c == secs[5].id || c == secs[6].id || c == secs[7].id || c == secs[8].id;
    }
    var s := a + b;
    forall i | 0 <= i < |s| ensures s[i].isDefault && FiledUnder(s[i], secs) {
      if i < |a| { assert s[i] == a[i]; } else { assert s[i] == b[i - |a|]; }
    }
  }

  /** The default sections are all default and have distinct ids. */
  lemma DefaultSectionsDistinct()
    ensures |DefaultSections()| == 9
    ensures forall i :: 0 <= i < |DefaultSections()| ==> DefaultSections()[i].isDefault
    ensures forall i, j :: 0 <= i < j < |DefaultSections()| ==> DefaultSections()[i].id != DefaultSections()[j].id
  {
  }

  /** Every default coverage rate is positive, so the gallon divisions are defined. */
  lemma DefaultCoveragePositive()
    ensures var c := DefaultInteriorCoverage();
            c.wallSqftPerGallon > 0.0 && c.ceilingSqftPerGallon > 0.0
            && c.trimLfPerGallon > 0.0 && c.cabinetGallonsPerDoor > 0.0
    ensures var c := DefaultExteriorCoverage();
            c.wallSqftPerGallon > 0.0 && c.trimLfPerGallon > 0.0 && c.doorGallonsPerDoor > 0.0
  {
  }

  /** The default markup options are exactly the markup percentages. */
  lemma DefaultMarkupOptionsAreMarkupPercentages(m: int)
    ensures m in DefaultMarkupOptions() <==> IsMarkupPercentage(m)
  {
  }

  /** On the defaults, looking up an item's own id yields that item's rate. */
  lemma DefaultRateOfItem(k: nat)
    requires k < |DefaultLineItems()|
    ensures GetRate(DefaultLineItems(), DefaultLineItems()[k].id) == DefaultLineItems()[k].rate
  {
    DefaultLineItemIdsDistinct();
    assert IdAbsentBefore(DefaultLineItems(), DefaultLineItems()[k].id, k);
    GetRateAt(DefaultLineItems(), k);
  }

  /** The two "miscellaneous dollars" items have rate 1, so that subtotal is the amount entered. */
  lemma MiscellaneousDollarsRateIsOne()
    ensures GetRate(DefaultLineItems(), "int-miscellaneous-dollars") == 1.0
    ensures GetRate(DefaultLineItems(), "ext-miscellaneous-dollars") == 1.0
  {
    var s := DefaultLineItems();
    assert s[19] == InteriorDefaultLineItems()[19];
    assert s[34] == ExteriorDefaultLineItems()[14];
    DefaultRateOfItem(19);
    DefaultRateOfItem(34);
  }

  /** The default interior measurement rates: walls $1.00, ceilings $0.50
      and trim $0.75 per unit. */
  lemma DefaultInteriorMeasurementRates()
    ensures GetRate(DefaultLineItems(), "int-wall-sqft") == 1.00
    ensures GetRate(DefaultLineItems(), "int-ceiling-sqft") == 0.50
    ensures GetRate(DefaultLineItems(), "int-trim-lf") == 0.75
  {
    var s := DefaultLineItems();
    assert s[0] == InteriorDefaultLineItems()[0];
    assert s[1] == InteriorDefaultLineItems()[1];
    assert s[2] == InteriorDefaultLineItems()[2];
    GetRateAt(s, 0);
    GetRateAt(s, 1);
    GetRateAt(s, 2);
  }

  /** The default exterior siding rate is $0.70 per square foot. */
  lemma DefaultSidingRate()
    ensures GetRate(DefaultLineItems(), "ext-wall-sqft") == 0.70
  {
    assert DefaultLineItems()[20] == ExteriorDefaultLineItems()[0];
    DefaultRateOfItem(20);
  }
}

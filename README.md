# Painting bid pricing engine — a Dafny model

This project models the core of a painting-contractor bidding app. The core has three parts:

- **The pricing engine.** There are four calculators:
  - interior and exterior *square-footage*: house area × one per-square-foot rate, no materials;
  - interior and exterior *detailed*: quantity × line-item rate over about twenty charged quantities, then the multiplicative job modifiers, then paint gallons rounded up to whole gallons.

  Every calculator ends the same way: the markup percentage is applied to labor + materials, giving the profit and the total. The engine also includes the default pricing configuration (35 line items in 9 sections, coverage rates, paint prices, markup options) and the default company settings.
- **The two stores:**
  - the settings store edits the company settings and the line items and sections of its pricing;
  - the bid store saves, loads, updates, deletes and lists bids, and tracks the current bid.
- **Bid migration.** Old detailed bids gain a `houseSquareFootage` of 0.

Pure computations are datatypes and functions. The code that updates variables step by step (modifier application, the material line builder, the detailed calculators' `baseLabor +=` accumulation) is a `method` proved equal to a specification function. Each store is a `class` whose methods reassign its field, with every new state given by a pure function of the old one. The properties are proved as lemmas about those functions.

Modules, one per file:

- `Seqs`: Option, first-match `Find`, `Filter`, `MapWhere`, `Sum`.
- `CalculatorTypes`, `SettingsTypes`, `BidTypes`: the data model.
- `Modifiers`: the factors and labels.
- `ModifierApplications`: the modifier engine.
- `LineItemRates`: `getRate` and sums of quantity × rate.
- `MaterialCalculations`: paint estimation.
- The four calculators: `InteriorSquareFootage`, `ExteriorSquareFootage`, `InteriorDetailed` and `ExteriorDetailed`.
- `DefaultPricing`: the default configuration.
- `SettingsStore`, `BidStore`, `BidMigration`.

Modelling choices:

- Money, rates, areas and quantities are `real`.
- Gallons are `int`, produced by `Ceil`, which models `Math.ceil`.
- Record spreads with a `Partial<T>` update (`{ ...x, ...updates }`) become update records whose fields are `Option`s. A present field overrides; an absent one keeps the old value.
- Generated ids (`crypto.randomUUID`, `custom-${Date.now()}-…`) and clock readings (`new Date()`) are parameters of the operations that use them.

## Model

| member | source | states |
|---|---|---|
| CalculatorTypes.PaintTypeName | src/types/calculator.types.ts:2 | every paint type prints as a non-empty name, the text interpolated into material item names |
| CalculatorTypes.MarkupFractionBounds | src/types/calculator.types.ts:7 | every allowed markup (35, 40, 45, 50, 55 or 60) yields a fraction between 0.35 and 0.60 |
| CalculatorTypes.ProfitBounds | src/core/calculators/interiorDetailed.ts:81-85 | on a non-negative subtotal the profit lies between 35% and 60% of it and the total is at least the subtotal |
| CalculatorTypes.ProfitAdditive | src/core/calculators/interiorSquareFootage.ts:59-61 | the profit on a sum is the sum of the profits |
| Modifiers.InteriorFactorsSigns | src/core/constants/modifiers.ts:4-10 | every interior factor is positive; exactly the empty-house and one-coat factors are below 1 |
| Modifiers.ExteriorFactorsSigns | src/core/constants/modifiers.ts:13-19 | every exterior factor is positive; exactly the one-coat factor is below 1 |
| Modifiers.OrdersAreComplete | src/core/calculators/utils/modifierApplications.ts:15-38 | the application order lists all five modifiers of each kind |
| Modifiers.LabelsDistinct | src/core/constants/modifiers.ts:22-36 | distinct modifiers carry distinct display labels |
| ModifierApplications.InteriorChain | src/core/calculators/utils/modifierApplications.ts:15-38 | the interior gates are the five modifiers in the source's order, each gated by its flag |
| ModifierApplications.ExteriorChain | src/core/calculators/utils/modifierApplications.ts:54-77 | the exterior gates are the five modifiers in the source's order, each gated by its flag |
| ModifierApplications.AppliedIsScaling | src/core/calculators/utils/modifierApplications.ts:12-40 | applying gates one after another equals multiplying the base by the product of the enabled factors |
| ModifierApplications.AllOffIsIdentity | src/core/calculators/utils/modifierApplications.ts:12-40 | with every flag off the labor is unchanged and no label is recorded |
| ModifierApplications.LabelCountIsEnabledCount | src/core/calculators/utils/modifierApplications.ts:12-40 | one label is recorded per enabled modifier |
| ModifierApplications.FiredLabelsMembership | src/core/calculators/utils/modifierApplications.ts:12-40 | a label is recorded if and only if some enabled gate carries it |
| ModifierApplications.ChainFactorPositive | src/core/calculators/utils/modifierApplications.ts:12-40 | positive factors give a positive combined factor |
| ModifierApplications.InteriorPreservesNonNegative | src/core/calculators/utils/modifierApplications.ts:8-41 | a non-negative base labor stays non-negative after the interior modifiers |
| ModifierApplications.ExteriorPreservesNonNegative | src/core/calculators/utils/modifierApplications.ts:47-80 | a non-negative base labor stays non-negative after the exterior modifiers |
| ModifierApplications.InteriorLabelIffEnabled | src/core/calculators/utils/modifierApplications.ts:15-38 | an interior modifier's label appears in `appliedModifiers` if and only if its flag is set |
| ModifierApplications.ExteriorLabelIffEnabled | src/core/calculators/utils/modifierApplications.ts:54-77 | an exterior modifier's label appears in `appliedModifiers` if and only if its flag is set |
| ModifierApplications.ThreeStoryAdditionalCoatExample | src/core/calculators/utils/modifierApplications.ts:54-77 | three-story plus an additional coat on a 1000 base gives 1437.5 and the two labels in order |
| ModifierApplications.ApplyInteriorModifiers | src/core/calculators/utils/modifierApplications.ts:8-41 | the five guarded multiply-and-push steps yield the chain's scaled labor and its enabled labels in order |
| ModifierApplications.ApplyExteriorModifiers | src/core/calculators/utils/modifierApplications.ts:47-80 | the five guarded multiply-and-push steps yield the chain's scaled labor and its enabled labels in order |
| LineItemRates.GetRateSpec | src/core/calculators/interiorDetailed.ts:19-22 | a missing id resolves to 0; otherwise the first line item carrying the id supplies the rate |
| LineItemRates.GetRateAt | src/core/calculators/interiorDetailed.ts:19-22 | the item at position i supplies its rate when no earlier item has its id |
| LineItemRates.GetRateNonNegative | src/core/calculators/interiorDetailed.ts:19-22 | non-negative configured rates resolve to non-negative rates |
| LineItemRates.GetRateAfterAppend | src/store/settingsStore.ts:48-67 | appending a line item (as `addLineItem` does) keeps every rate that already resolved, and a new id resolves to the appended rate |
| LineItemRates.PricedConcat | src/core/calculators/interiorDetailed.ts:25-65 | pricing two lists of charges is adding their prices |
| LineItemRates.PricedPrefix | src/core/calculators/interiorDetailed.ts:25-65 | zero quantities past a prefix add nothing to the price |
| LineItemRates.PricedNonNegative | src/core/calculators/interiorDetailed.ts:25-65 | non-negative quantities at non-negative rates cost nothing negative |
| LineItemRates.PricedZero | src/core/calculators/interiorDetailed.ts:25-65 | zero quantities cost nothing, whatever the rates |
| MaterialCalculations.Ceil | src/core/calculators/utils/materialCalculations.ts:32 | the result is the least integer not below x |
| MaterialCalculations.GallonsFor | src/core/calculators/utils/materialCalculations.ts:31-32 | a surface with work needs the amount divided by the coverage rate (that many gallons cover it); a surface without work needs none, whatever the rate |
| MaterialCalculations.LineFor | src/core/calculators/utils/materialCalculations.ts:31-39 | each guarded surface contributes at most one line |
| MaterialCalculations.TotalCost | src/core/calculators/utils/materialCalculations.ts:75 | the `reduce` loop yields the sum of the item costs |
| MaterialCalculations.CalculateInteriorMaterials | src/core/calculators/utils/materialCalculations.ts:23-81 | the conditional pushes and the reduce produce the interior estimate, whose total is the sum of its line costs |
| MaterialCalculations.CalculateExteriorMaterials | src/core/calculators/utils/materialCalculations.ts:86-132 | the conditional pushes and the reduce produce the exterior estimate, whose total is the sum of its line costs |
| MaterialCalculations.CalculateSimpleMaterials | src/core/calculators/utils/materialCalculations.ts:137-162 | always one line named `<paint> Paint`, holding whole gallons that cover the area with less than one gallon to spare, at the interior or exterior price, with the total equal to that line's cost |
| MaterialCalculations.LinesForCount | src/core/calculators/utils/materialCalculations.ts:23-81 | there are exactly as many lines as surfaces with a positive amount |
| MaterialCalculations.LinesForSound | src/core/calculators/utils/materialCalculations.ts:23-81 | every line was bought for some surface |
| MaterialCalculations.LinesForQuantities | src/core/calculators/utils/materialCalculations.ts:31-39 | every line is at the given price, costs quantity × price, and holds the rounded-up gallons of a surface with work |
| MaterialCalculations.LinesForComplete | src/core/calculators/utils/materialCalculations.ts:31-39 | every surface with a positive amount gets its line |
| MaterialCalculations.LinesForNoWork | src/core/calculators/utils/materialCalculations.ts:23-81 | with no positive amount there are no lines |
| MaterialCalculations.LinesForAtLeastOneGallon | src/core/calculators/utils/materialCalculations.ts:31-39 | when work implies a positive need, every line buys at least one gallon |
| MaterialCalculations.InteriorMaterialsShape | src/core/calculators/utils/materialCalculations.ts:23-81 | at most four lines; with no interior work no lines and zero cost |
| MaterialCalculations.InteriorMaterialsOrder | src/core/calculators/utils/materialCalculations.ts:31-73 | with every surface worked the lines are walls, ceilings, trim, cabinets in that order |
| MaterialCalculations.InteriorMaterialsQuantities | src/core/calculators/utils/materialCalculations.ts:31-73 | every interior line is at the paint's price, costs quantity × price, and covers its surface with less than one gallon to spare |
| MaterialCalculations.InteriorMaterialsComplete | src/core/calculators/utils/materialCalculations.ts:31-73 | every worked interior surface is bought as its gallons rounded up |
| MaterialCalculations.InteriorMaterialsNoEmptyLines | src/core/calculators/utils/materialCalculations.ts:31-73 | with positive coverage, every interior line buys at least one gallon |
| MaterialCalculations.InteriorMaterialsNonNegative | src/core/calculators/utils/materialCalculations.ts:23-81 | non-negative amounts, coverage and price give a non-negative material cost |
| MaterialCalculations.ExteriorMaterialsShape | src/core/calculators/utils/materialCalculations.ts:86-132 | at most three lines; with no exterior work no lines and zero cost |
| MaterialCalculations.ExteriorMaterialsOrder | src/core/calculators/utils/materialCalculations.ts:94-124 | with every surface worked the lines are siding, trim/fascia/soffit, doors in that order |
| MaterialCalculations.ExteriorMaterialsQuantities | src/core/calculators/utils/materialCalculations.ts:94-124 | every exterior line is at the paint's price, costs quantity × price, and covers its surface with less than one gallon to spare |
| MaterialCalculations.ExteriorMaterialsComplete | src/core/calculators/utils/materialCalculations.ts:94-124 | every worked exterior surface is bought as its gallons rounded up |
| MaterialCalculations.ExteriorMaterialsNonNegative | src/core/calculators/utils/materialCalculations.ts:86-132 | non-negative amounts, coverage and price give a non-negative material cost |
| MaterialCalculations.InteriorMaterialsDefaultExample | src/core/calculators/utils/materialCalculations.ts:23-81 | 1000 sq ft of walls and of ceilings and 100 ft of trim in SuperPaint at default coverage buy 4 + 4 + 1 gallons for $315 |
| MaterialCalculations.ExteriorMaterialsDefaultExample | src/core/calculators/utils/materialCalculations.ts:86-132 | 1000 sq ft of siding in SuperPaint at 200 sq ft per gallon buys 5 gallons for $175 |
| MaterialCalculations.CeilingDivisionExample | src/core/calculators/utils/materialCalculations.ts:32 | 251 sq ft at 250 per gallon buys two gallons |
| InteriorSquareFootage.InteriorSqftAutoMeasurements | src/core/calculators/interiorSquareFootage.ts:12-21 | walls, ceilings and trim are the house area times the wall, ceiling and trim multipliers; a zero area gives zero of each |
| InteriorSquareFootage.AutoMeasurementsAdditive | src/core/calculators/interiorSquareFootage.ts:12-21 | the measurements of two areas together are the sums of their measurements |
| InteriorSquareFootage.AutoMeasurementsMonotone | src/core/calculators/interiorSquareFootage.ts:12-21 | with non-negative multipliers a larger house never measures less |
| InteriorSquareFootage.AutoMeasurementsDefaultExample | src/core/constants/defaultPricing.ts:48-52 | at the default multipliers a 2000 sq ft house has 6400 sq ft of walls, 2000 sq ft of ceilings and 700 ft of trim |
| InteriorSquareFootage.InteriorSquareFootageBid | src/core/calculators/interiorSquareFootage.ts:27-76 | no materials; the profit is the markup on the labor, the total is labor + profit, and the breakdown holds the area, the option, the auto-measurements and the markup |
| InteriorSquareFootage.LaborPerOption | src/core/calculators/interiorSquareFootage.ts:34-47 | the labor is the area at exactly the rate the option names, for each of the four options |
| InteriorSquareFootage.OnlySelectedRateMatters | src/core/calculators/interiorSquareFootage.ts:34-47 | changing rates the option does not select leaves the bid unchanged |
| InteriorSquareFootage.ZeroSquareFootage | src/core/calculators/interiorSquareFootage.ts:27-76 | a zero area costs nothing and measures nothing |
| InteriorSquareFootage.Additive | src/core/calculators/interiorSquareFootage.ts:34-61 | labor, profit and total for a + b square feet are the sums of those for a and for b |
| InteriorSquareFootage.NonNegative | src/core/calculators/interiorSquareFootage.ts:34-61 | a non-negative area and rate give non-negative labor, a profit between 35% and 60% of it, and a total of at least the labor |
| InteriorSquareFootage.CompleteDefaultExample | src/core/constants/defaultPricing.ts:10-15 | a 2000 sq ft complete repaint at the default $2.50 and 40% markup is $5,000 + $2,000 = $7,000 |
| ExteriorSquareFootage.ExteriorSqftAutoMeasurements | src/core/calculators/exteriorSquareFootage.ts:12-20 | siding and trim are the house area times the siding and trim multipliers; a zero area gives zero of each |
| ExteriorSquareFootage.AutoMeasurementsAdditive | src/core/calculators/exteriorSquareFootage.ts:12-20 | the measurements of two areas together are the sums of their measurements |
| ExteriorSquareFootage.AutoMeasurementsMonotone | src/core/calculators/exteriorSquareFootage.ts:12-20 | with non-negative multipliers a larger house never measures less |
| ExteriorSquareFootage.AutoMeasurementsDefaultExample | src/core/constants/defaultPricing.ts:53-56 | at the default multipliers a 2000 sq ft house has 2800 sq ft of siding and 600 ft of trim |
| ExteriorSquareFootage.ExteriorSquareFootageBid | src/core/calculators/exteriorSquareFootage.ts:26-69 | no materials; the profit is the markup on the labor, the total is labor + profit, and the breakdown holds the area, the option, the auto-measurements and the markup |
| ExteriorSquareFootage.LaborPerOption | src/core/calculators/exteriorSquareFootage.ts:31-40 | the labor is the area at exactly the rate the option names |
| ExteriorSquareFootage.OnlySelectedRateMatters | src/core/calculators/exteriorSquareFootage.ts:31-40 | changing the rate the option does not select leaves the bid unchanged |
| ExteriorSquareFootage.ZeroSquareFootage | src/core/calculators/exteriorSquareFootage.ts:26-69 | a zero area costs nothing and measures nothing |
| ExteriorSquareFootage.Additive | src/core/calculators/exteriorSquareFootage.ts:31-54 | labor, profit and total for a + b square feet are the sums of those for a and for b |
| ExteriorSquareFootage.NonNegative | src/core/calculators/exteriorSquareFootage.ts:31-54 | a non-negative area and rate give non-negative labor, a profit between 35% and 60% of it, and a total of at least the labor |
| ExteriorSquareFootage.FullExteriorDefaultExample | src/core/constants/defaultPricing.ts:16-19 | a 2000 sq ft full exterior at the default $2.00 and 40% markup is $4,000 + $1,600 = $5,600 |
| InteriorDetailed.AccumulateBaseLabor | src/core/calculators/interiorDetailed.ts:25-65 | the four category records and the accumulated `baseLabor`, as the category functions define them |
| InteriorDetailed.CalculateInteriorDetailed | src/core/calculators/interiorDetailed.ts:14-106 | the method's result is the interior detailed bid: labor, materials, profit, total and breakdown |
| InteriorDetailed.BaseLaborIsPriced | src/core/calculators/interiorDetailed.ts:25-65 | the base labor is exactly the sum of quantity × `getRate` over the twenty charged quantities |
| InteriorDetailed.MeasurementsPriced | src/core/calculators/interiorDetailed.ts:28-33 | the walls, ceilings and trim charges sum to the measurement labor |
| InteriorDetailed.DoorsCabinetsPriced | src/core/calculators/interiorDetailed.ts:36-43 | the five door and cabinet charges sum to the reduced category |
| InteriorDetailed.PrepWorkPriced | src/core/calculators/interiorDetailed.ts:46-56 | the eight prep charges sum to the reduced category; the two priming charges form one value |
| InteriorDetailed.AdditionalPriced | src/core/calculators/interiorDetailed.ts:59-65 | the four additional charges sum to the reduced category |
| InteriorDetailed.RateUsesMatchDefaults | src/core/constants/defaultPricing.ts:73-259 | the charged ids are the interior default line items one for one, and on the defaults each resolves to that item's rate |
| InteriorDetailed.InteriorDetailedBreakdownReport | src/core/calculators/interiorDetailed.ts:88-96 | the breakdown reports the rated base labor, the modified labor, which is the bid's labor, and the enabled modifier labels |
| InteriorDetailed.InteriorDetailedBid | src/core/calculators/interiorDetailed.ts:68-85 | the labor is the base labor times the product of the enabled modifier factors; the materials are the interior estimate of the forwarded quantities; profit and total mark up labor + materials |
| InteriorDetailed.NoModifiersNoChange | src/core/calculators/interiorDetailed.ts:68 | with no modifier the labor is the base labor and no label is recorded |
| InteriorDetailed.MaterialQuantitiesCharged | src/core/calculators/interiorDetailed.ts:71-78 | the walls, ceilings, trim and both cabinet-door quantities that feed the paint estimate are the charged ones |
| InteriorDetailed.EmptyJobNoLabor | src/core/calculators/interiorDetailed.ts:25-68 | with all quantities zero the labor is zero |
| InteriorDetailed.EmptyJobCostsNothing | src/core/calculators/interiorDetailed.ts:14-106 | with all quantities zero labor, materials, profit and total are zero |
| InteriorDetailed.LaborNonNegative | src/core/calculators/interiorDetailed.ts:25-68 | non-negative quantities and rates give non-negative labor |
| InteriorDetailed.InteriorDetailedNonNegative | src/core/calculators/interiorDetailed.ts:14-106 | non-negative quantities, rates, coverage and price give a non-negative bid with the total at least the subtotal |
| InteriorDetailed.MeasurementsOnlyPriced | src/core/calculators/interiorDetailed.ts:25-65 | when only walls, ceilings and trim are non-zero, only the measurement charges count |
| InteriorDetailed.DefaultBaseLaborExample | src/core/constants/defaultPricing.ts:73-100 | 1000 sq ft of walls and of ceilings and 100 ft of trim at the default rates are $1,575 of base labor |
| InteriorDetailed.DefaultPricingExample | src/core/calculators/interiorDetailed.ts:14-106 | that job in SuperPaint at 40% markup with no modifier is $1,575 labor + $315 materials + $756 profit = $2,646 |
| ExteriorDetailed.AccumulateBaseLabor | src/core/calculators/exteriorDetailed.ts:25-65 | the five category records and the accumulated `baseLabor`, as the category functions define them |
| ExteriorDetailed.CalculateExteriorDetailed | src/core/calculators/exteriorDetailed.ts:14-105 | the method's result is the exterior detailed bid: labor, materials, profit, total and breakdown |
| ExteriorDetailed.BaseLaborIsPriced | src/core/calculators/exteriorDetailed.ts:25-65 | the base labor is exactly the sum of quantity × `getRate` over the fifteen charged quantities |
| ExteriorDetailed.MeasurementsPriced | src/core/calculators/exteriorDetailed.ts:28-32 | the siding and trim/fascia/soffit charges sum to the measurement labor |
| ExteriorDetailed.DoorsShuttersPriced | src/core/calculators/exteriorDetailed.ts:35-40 | the three door and shutter charges sum to the reduced category |
| ExteriorDetailed.PrepWorkPriced | src/core/calculators/exteriorDetailed.ts:43-47 | the two priming charges form the one prep value |
| ExteriorDetailed.ReplacementsPriced | src/core/calculators/exteriorDetailed.ts:50-56 | the four replacement and repair charges sum to the reduced category |
| ExteriorDetailed.AdditionalPriced | src/core/calculators/exteriorDetailed.ts:59-65 | the four additional charges sum to the reduced category |
| ExteriorDetailed.RateUsesMatchDefaults | src/core/constants/defaultPricing.ts:261-405 | the charged ids are the exterior default line items one for one, and on the defaults each resolves to that item's rate |
| ExteriorDetailed.ExteriorDetailedBreakdownReport | src/core/calculators/exteriorDetailed.ts:86-95 | the breakdown reports the rated base labor, the modified labor, which is the bid's labor, and the enabled modifier labels |
| ExteriorDetailed.ExteriorDetailedBid | src/core/calculators/exteriorDetailed.ts:68-83 | the labor is the base labor times the product of the enabled modifier factors; the materials are the exterior estimate of the forwarded quantities; profit and total mark up labor + materials |
| ExteriorDetailed.NoModifiersNoChange | src/core/calculators/exteriorDetailed.ts:68 | with no modifier the labor is the base labor and no label is recorded |
| ExteriorDetailed.MaterialQuantitiesCharged | src/core/calculators/exteriorDetailed.ts:71-76 | the siding, trim and door quantities that feed the paint estimate are the charged ones |
| ExteriorDetailed.EmptyJobNoLabor | src/core/calculators/exteriorDetailed.ts:25-68 | with all quantities zero the labor is zero |
| ExteriorDetailed.EmptyJobCostsNothing | src/core/calculators/exteriorDetailed.ts:14-105 | with all quantities zero labor, materials, profit and total are zero |
| ExteriorDetailed.LaborNonNegative | src/core/calculators/exteriorDetailed.ts:25-68 | non-negative quantities and rates give non-negative labor |
| ExteriorDetailed.ExteriorDetailedNonNegative | src/core/calculators/exteriorDetailed.ts:14-105 | non-negative quantities, rates, coverage and price give a non-negative bid with the total at least the subtotal |
| ExteriorDetailed.SidingOnlyPriced | src/core/calculators/exteriorDetailed.ts:25-65 | when only the siding area is non-zero, the price is that area at the `ext-wall-sqft` rate |
| ExteriorDetailed.DefaultBaseLaborExample | src/core/constants/defaultPricing.ts:261-279 | 1000 sq ft of siding at the default rate is $700 of base labor |
| ExteriorDetailed.DefaultPricingExample | src/core/calculators/exteriorDetailed.ts:14-105 | that job in SuperPaint at 40% markup with no modifier is $700 labor + $175 materials + $350 profit = $1,225 |
| DefaultPricing.InteriorDefaultIdsDistinct | src/core/constants/defaultPricing.ts:73-259 | the 20 interior default items have pairwise distinct ids, all starting with `i` |
| DefaultPricing.ExteriorDefaultIdsDistinct | src/core/constants/defaultPricing.ts:261-405 | the 15 exterior default items have pairwise distinct ids, all starting with `e` |
| DefaultPricing.DefaultLineItemIdsDistinct | src/core/constants/defaultPricing.ts:72-405 | there are 35 default line items with pairwise distinct ids, so first-match lookup is unambiguous |
| DefaultPricing.DefaultLineItemsFiled | src/core/constants/defaultPricing.ts:72-476 | every default line item names an existing default section as its category |
| DefaultPricing.DefaultSectionsDistinct | src/core/constants/defaultPricing.ts:408-476 | nine default sections, all marked default, with pairwise distinct ids |
| DefaultPricing.DefaultCoveragePositive | src/core/constants/defaultPricing.ts:35-45 | every default coverage rate is positive |
| DefaultPricing.CreateDefaultPricingSettings | src/core/constants/defaultPricing.ts:7-477 | 35 default line items with distinct ids, each default and filed under one of 9 default sections with distinct ids, and positive coverage rates |
| DefaultPricing.GetDefaultCompanySettings | src/core/constants/defaultPricing.ts:482-493 | the default company settings carry the default pricing and no logo |
| DefaultPricing.DefaultMarkupOptionsAreMarkupPercentages | src/core/constants/defaultPricing.ts:59 | the default markup options are exactly the allowed markup percentages |
| DefaultPricing.DefaultRateOfItem | src/core/constants/defaultPricing.ts:72-405 | looking up any default item's id returns that item's own rate |
| DefaultPricing.MiscellaneousDollarsRateIsOne | src/core/constants/defaultPricing.ts:251-259 | the interior and exterior miscellaneous-dollars items pass dollars through at rate 1 |
| DefaultPricing.DefaultInteriorMeasurementRates | src/core/constants/defaultPricing.ts:73-100 | the default wall, ceiling and trim rates are 1.00, 0.50 and 0.75 |
| DefaultPricing.DefaultSidingRate | src/core/constants/defaultPricing.ts:261-279 | the default siding rate is 0.70 per sq ft |
| SettingsStore.MergeSettingsIdentityIdempotent | src/store/settingsStore.ts:29-35 | an empty settings update changes nothing, and applying an update twice equals applying it once |
| SettingsStore.MergeSettings | src/store/settingsStore.ts:29-35 | every key the update carries replaces the current value, every other key keeps it |
| SettingsStore.MergeSettingsCompose | src/store/settingsStore.ts:29-35 | two successive settings updates equal one combined update in which the later fields win |
| SettingsStore.WithPricingUpdated | src/store/settingsStore.ts:37-46 | the new pricing is the spread of the update over the old pricing (each key the update carries replaces the old value, each other key keeps it, as MergePricing states); nothing outside the pricing changes; line items and sections are kept when the update omits them |
| SettingsStore.MergePricingIdentityIdempotent | src/store/settingsStore.ts:37-46 | an empty pricing update changes nothing, and applying an update twice equals applying it once |
| SettingsStore.MergePricing | src/store/settingsStore.ts:37-46 | every key the update carries replaces the current pricing value, every other key keeps it |
| SettingsStore.MaxOrder | src/store/settingsStore.ts:51 | `Math.max(...orders, 0)`: at least 0, at least every order, and either 0 or one of the orders |
| SettingsStore.NextOrder | src/store/settingsStore.ts:51-55 | the new order is at least 1, above every existing order, 1 when no order is positive, and otherwise one more than an existing order |
| SettingsStore.WithLineItem | src/store/settingsStore.ts:48-67 | the new item with the given id and the caller's fields is appended after the unchanged existing items; its order is one more than the largest existing order (1 when none is positive), so above all of theirs; nothing else changes |
| SettingsStore.WithLineItemUpdated | src/store/settingsStore.ts:69-80 | every item with the id is merged with the update, the others stay in place, and nothing else changes |
| SettingsStore.UpdateAbsentLineItem | src/store/settingsStore.ts:69-80 | updating an id no item carries changes nothing |
| SettingsStore.UpdateLineItemIdempotent | src/store/settingsStore.ts:69-80 | repeating a line-item update changes nothing more |
| SettingsStore.WithoutLineItem | src/store/settingsStore.ts:82-99 | refused (state unchanged) when the first item with the id is a default item; otherwise no item with the id remains, every item with another id remains in its order, nothing new appears, and nothing outside the line items changes |
| SettingsStore.DeleteDefaultLineItemRefused | src/store/settingsStore.ts:84-88 | deleting a default item that is first with its id leaves the settings exactly as they were |
| SettingsStore.AddLineItemKeepsIdsDistinct | src/store/settingsStore.ts:48-67 | adding an item under a fresh id keeps line-item ids pairwise distinct |
| SettingsStore.WithSection | src/store/settingsStore.ts:101-120 | the new section with the given id and the caller's fields is appended after the unchanged existing sections; its order is one more than the largest existing order (1 when none is positive), so above all of theirs; nothing else changes |
| SettingsStore.WithSectionUpdated | src/store/settingsStore.ts:122-133 | every section with the id is merged with the update, the others stay in place, and nothing else changes |
| SettingsStore.WithoutSection | src/store/settingsStore.ts:135-156 | refused (state unchanged) for a default section; otherwise no section with the id and no line item filed under it remains, every other section and every item filed elsewhere remains in its order, nothing new appears, and nothing else changes |
| SettingsStore.DeleteSectionKeepsItemsFiled | src/store/settingsStore.ts:135-156 | if every line item names an existing section, that still holds after a section delete |
| SettingsStore.AddLineItemKeepsItemsFiled | src/store/settingsStore.ts:48-67 | adding an item whose category is an existing section keeps every item filed |
| SettingsStore.Store.constructor | src/store/settingsStore.ts:27 | the store starts from the default company settings |
| SettingsStore.Store.UpdateSettings | src/store/settingsStore.ts:29-35 | the new settings are the old ones merged with the update |
| SettingsStore.Store.UpdatePricing | src/store/settingsStore.ts:37-46 | the new settings have the pricing merged with the update |
| SettingsStore.Store.AddLineItem | src/store/settingsStore.ts:48-67 | the new settings are the old ones with the line item appended |
| SettingsStore.Store.UpdateLineItem | src/store/settingsStore.ts:69-80 | the new settings have the matching line items merged with the update |
| SettingsStore.Store.DeleteLineItem | src/store/settingsStore.ts:82-99 | the new settings are the old ones after the guarded line-item delete |
| SettingsStore.Store.AddSection | src/store/settingsStore.ts:101-120 | the new settings are the old ones with the section appended |
| SettingsStore.Store.UpdateSection | src/store/settingsStore.ts:122-133 | the new settings have the matching sections merged with the update |
| SettingsStore.Store.DeleteSection | src/store/settingsStore.ts:135-156 | the new settings are the old ones after the guarded, cascading section delete |
| SettingsStore.Store.ResetSettings | src/store/settingsStore.ts:158-161 | the settings are the default company settings again |
| BidStore.ApplyBidUpdate | src/store/bidStore.ts:52-58 | the id and creation time are kept and the update time is the clock's; each of type, customer, inputs and result is the update's when it carries that key and the bid's otherwise |
| BidStore.ApplyBidUpdateTwice | src/store/bidStore.ts:52-58 | repeating an update changes nothing but the update time |
| BidStore.UpdatedBids | src/store/bidStore.ts:51-61 | every bid with the id is updated, the others kept in place |
| BidStore.CurrentAfterDelete | src/store/bidStore.ts:79 | the current bid is cleared exactly when it is the deleted one |
| BidStore.SaveThenLoad | src/store/bidStore.ts:27-48 | a bid saved under a fresh id is what loading that id finds |
| BidStore.DeleteThenLoad | src/store/bidStore.ts:41-48 | after a delete, loading the id finds nothing |
| BidStore.DeleteKeepsOthers | src/store/bidStore.ts:76-81 | a delete keeps every bid with another id |
| BidStore.UpdateKeepsCurrentInStep | src/store/bidStore.ts:50-74 | a current bid taken from the list stays equal to that list entry after the same update |
| BidStore.InsertSorted | src/store/bidStore.ts:95-99 | inserting into a newest-first list keeps it newest first and adds exactly the item |
| BidStore.InsertPermutes | src/store/bidStore.ts:95-99 | insertion adds exactly the item to the multiset of rows |
| BidStore.InsertBounded | src/store/bidStore.ts:95-99 | insertion keeps every creation time below a common bound |
| BidStore.InsertStable | src/store/bidStore.ts:95-99 | among rows with equal creation times, the inserted row comes first and the others keep their order |
| BidStore.NewestFirst | src/store/bidStore.ts:95-99 | the sort puts the rows newest first and is a permutation of them |
| BidStore.NewestFirstStable | src/store/bidStore.ts:95-99 | the sort is stable: rows with equal creation times keep their relative order |
| BidStore.NewestFirstOfSorted | src/store/bidStore.ts:95-99 | an already newest-first list is left as it is |
| BidStore.Store.constructor | src/store/bidStore.ts:24-25 | the store starts with no bids and no current bid |
| BidStore.Store.SaveBid | src/store/bidStore.ts:27-39 | the new bid is appended and becomes the current bid |
| BidStore.Store.LoadBid | src/store/bidStore.ts:41-48 | returns the first bid with the id, or none; a found bid becomes current, otherwise nothing changes |
| BidStore.Store.UpdateBid | src/store/bidStore.ts:50-74 | the list is updated element-wise, and the current bid is updated when its id matches |
| BidStore.Store.DeleteBid | src/store/bidStore.ts:76-81 | every bid with the id is removed, and the current bid is cleared when it is that bid |
| BidStore.Store.GetAllBids | src/store/bidStore.ts:83-100 | the listing is newest first, a permutation of the bids' rows, and stable for equal creation times |
| BidStore.Store.SetCurrentBid | src/store/bidStore.ts:102-104 | the current bid becomes the given one and the list is unchanged |
| BidStore.Store.ClearCurrentBid | src/store/bidStore.ts:106-108 | there is no current bid and the list is unchanged |
| BidMigration.WithHouseSquareFootage | src/utils/bidMigration.ts:44-47 | the inputs gain the field with the value; nothing else about them changes |
| BidMigration.MigrateInteriorDetailedBid | src/utils/bidMigration.ts:40-53 | only the inputs change, gaining a house area of 0 |
| BidMigration.MigrateExteriorDetailedBid | src/utils/bidMigration.ts:59-72 | only the inputs change, gaining a house area of 0 |
| BidMigration.MigrateSavedBids | src/utils/bidMigration.ts:78-80 | one bid per input bid, in order; only inputs change; bids already current are kept as they are; every bid comes out current (a square-footage bid or one carrying the house area) |
| BidMigration.UnchangedWhenCurrent | src/utils/bidMigration.ts:14-22 | square-footage bids and bids that already carry the field come back unchanged |
| BidMigration.MigrateBidToCurrentVersion | src/utils/bidMigration.ts:12-34 | only the inputs change; the result is current; a bid already current comes back unchanged; any other gains a house area of 0 and keeps the rest of its inputs |
| BidMigration.DetailedBidGainsZeroArea | src/utils/bidMigration.ts:25-31 | a detailed bid without the field gains it with value 0, and nothing else changes |
| BidMigration.MigrationIdempotent | src/utils/bidMigration.ts:12-34 | migrating a migrated bid changes nothing |
| BidMigration.SavedBidsIdempotent | src/utils/bidMigration.ts:78-80 | migrating the saved bids twice equals migrating them once |
| BidMigration.PricingIrrelevant | src/utils/bidMigration.ts:40-72 | the pricing argument has no effect on the migration |
| BidMigration.MigratedBidHasArea | src/utils/bidMigration.ts:12-34 | every bid whose inputs match its calculator type carries the field once migrated |
| BidMigration.SavedBidsKeepIdentity | src/utils/bidMigration.ts:78-80 | migration keeps each bid's id, type, customer, result and times |

## Left out

- Floating point:
  - Numbers are exact reals, so IEEE-754 rounding, `NaN` and `Infinity` are not modelled.
  - `item?.rate || 0` in `getRate` is modelled as "the rate of the first item with the id, else 0". A configured rate of `NaN` would also fall back to 0 in the source; reals have no `NaN`.
- MaterialCalculations.CalculateInteriorMaterials: requires a non-zero coverage rate for each of the walls, ceilings and trim that has a positive amount, and only for those. The source divides by a rate only inside that surface's `> 0` branch; with a positive amount and a zero rate it would buy `Infinity` gallons, which has no real counterpart. The same precondition carries over to CalculateExteriorMaterials (siding and trim), InteriorDetailed.CalculateInteriorDetailed, ExteriorDetailed.CalculateExteriorDetailed and the lemmas about their specification functions.
- MaterialCalculations.CalculateSimpleMaterials:
  - requires a non-zero coverage rate, for the same reason;
  - requires a non-ProMar paint when `isExterior`, since the exterior price table has no ProMar entry (the source would read `undefined`).
- The `timestamp: new Date()` of every `BidResult` is dropped; the result has no clock.
- IDs and clocks are parameters:
  - `crypto.randomUUID()`;
  - the `custom-${Date.now()}-…` ids of added line items and sections;
  - the `new Date()` readings in `saveBid` and `updateBid`.
  The model does not establish that generated ids are fresh; lemmas that need it take it as a precondition.
- BidStore.Store.SaveBid: `createdAt` and `updatedAt` come from two separate clock readings in the source, so they are two parameters.
- BidStore.Store.UpdateBid:
  - the list entry and the current bid are stamped by separate clock readings, so they are two parameters;
  - the source's two successive `set` calls are one state change here, which only matters to subscribers in between.
- Persistence (`zustand` `persist` and localStorage), the React components and pages, PDF export and `console.warn` are not modelled.
- `Partial<T>` updates are modelled as records of `Option` fields. An update that sets an optional field to `undefined` is a present field holding `None`.
- BidMigration: the final `return bid` after the two detailed branches cannot be reached with the four calculator types. The model's dispatch therefore has no such branch.
- The crew rates and job-duration texts in the default pricing are carried as data only. They are read by display components that are not part of this model.
- The legacy constants in `src/core/constants/pricing.ts` and `coverage.ts` are not modelled. The default pricing restates their values, and the defaults are what the calculators read.

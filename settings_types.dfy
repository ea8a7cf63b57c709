/** The user-editable pricing configuration the calculators read, and the
    company settings record that holds it. These shapes are reconstructed
    from the default pricing literal and from the settings store that
    edits them. */
module SettingsTypes {
  import opened Seqs
  import opened CalculatorTypes

  /** Billing unit of a detailed line item. */
  datatype LineItemUnit = Sqft | Lf | Each | Hour | Dollars

  /** One priced unit of detailed labor; `category` names a section id. */
  datatype LineItemConfig = LineItemConfig(
    id: string,
    name: string,
    rate: real,
    unit: LineItemUnit,
    category: string,
    isDefault: bool,
    order: int)

  /** A group of line items shown under one heading of a detailed calculator. */
  datatype SectionConfig = SectionConfig(
    id: string,
    name: string,
    calculatorType: CalculatorType,
    isDefault: bool,
    order: int)

  datatype InteriorSqftRates = InteriorSqftRates(wallsOnly: real, trimOnly: real, ceilingsOnly: real, complete: real)

  datatype ExteriorSqftRates = ExteriorSqftRates(fullExterior: real, trimOnly: real)

  /** Per-gallon interior paint prices, indexed by paint type. */
  datatype InteriorPaintPrices = InteriorPaintPrices(proMar: real, superPaint: real, duration: real, emerald: real)
  {
    function Price(p: PaintType): real
    {
      match p
      case ProMar => proMar
      case SuperPaint => superPaint
      case Duration => duration
      case Emerald => emerald
    }
  }

  /** Per-gallon exterior paint prices; the table has no ProMar entry. */
  datatype ExteriorPaintPrices = ExteriorPaintPrices(superPaint: real, duration: real, emerald: real)
  {
    function Price(p: ExteriorPaintType): real
    {
      if p == SuperPaint then superPaint
      else if p == Duration then duration
      else emerald
    }
  }

  datatype InteriorCoverage = InteriorCoverage(
    wallSqftPerGallon: real,
    ceilingSqftPerGallon: real,
    trimLfPerGallon: real,
    cabinetGallonsPerDoor: real)

  datatype ExteriorCoverage = ExteriorCoverage(
    wallSqftPerGallon: real,
    trimLfPerGallon: real,
    doorGallonsPerDoor: real)

  datatype InteriorMultipliers = InteriorMultipliers(wall: real, ceiling: real, trim: real)

  datatype ExteriorMultipliers = ExteriorMultipliers(siding: real, trim: real)

  datatype CrewRate = CrewRate(crewSize: int, dailyRate: real, description: string)

  datatype PricingSettings = PricingSettings(
    interiorSqft: InteriorSqftRates,
    exteriorSqft: ExteriorSqftRates,
    interiorPaint: InteriorPaintPrices,
    exteriorPaint: ExteriorPaintPrices,
    interiorCoverage: InteriorCoverage,
    exteriorCoverage: ExteriorCoverage,
    interiorMultipliers: InteriorMultipliers,
    exteriorMultipliers: ExteriorMultipliers,
    markupOptions: seq<int>,
    crewRates: seq<CrewRate>,
    jobDurationFormulaText: string,
    jobDurationExampleText: string,
    lineItems: seq<LineItemConfig>,
    sections: seq<SectionConfig>)

  /** Company branding plus the pricing configuration; optional fields are `Option`s. */
  datatype CompanySettings = CompanySettings(
    name: string,
    address: string,
    phone: string,
    email: string,
    website: Option<string>,
    licenseNumber: Option<string>,
    logo: Option<string>,
    pricing: PricingSettings)
}

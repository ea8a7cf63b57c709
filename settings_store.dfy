/** The settings store: the company settings record, with reducers that
    merge partial updates and add, edit and delete the configurable line
    items and sections of the pricing. */
module SettingsStore {
  import opened Seqs
  import opened CalculatorTypes
  import opened SettingsTypes
  import opened DefaultPricing

  /** The value an optional update field supplies, or the current one. */
  function Pick<T>(update: Option<T>, current: T): T
  {
    if update.Some? then update.value else current
  }

  /** The later of two optional updates to one field. */
  function Later<T>(first: Option<T>, second: Option<T>): Option<T>
  {
    if second.Some? then second else first
  }

  // ---------------------------------------------------------------------
  // Partial updates of the settings and of the pricing

  /** `Partial<CompanySettings>`: a `Some` for every key the update carries. */
  datatype SettingsUpdate = SettingsUpdate(
    name: Option<string>,
    address: Option<string>,
    phone: Option<string>,
    email: Option<string>,
    website: Option<Option<string>>,
    licenseNumber: Option<Option<string>>,
    logo: Option<Option<string>>,
    pricing: Option<PricingSettings>)

  const NoSettingsUpdate: SettingsUpdate := SettingsUpdate(None, None, None, None, None, None, None, None)

  /** `{ ...settings, ...updates }`: every key the update carries replaces
      the current value, every other key keeps it. */
  function MergeSettings(s: CompanySettings, u: SettingsUpdate): (r: CompanySettings)
    ensures u.name.Some? ==> r.name == u.name.value
    ensures u.name.None? ==> r.name == s.name
    ensures u.address.Some? ==> r.address == u.address.value
    ensures u.address.None? ==> r.address == s.address
    ensures u.phone.Some? ==> r.phone == u.phone.value
    ensures u.phone.None? ==> r.phone == s.phone
    ensures u.email.Some? ==> r.email == u.email.value
    ensures u.email.None? ==> r.email == s.email
    ensures u.website.Some? ==> r.website == u.website.value
    ensures u.website.None? ==> r.website == s.website
    ensures u.licenseNumber.Some? ==> r.licenseNumber == u.licenseNumber.value
    ensures u.licenseNumber.None? ==> r.licenseNumber == s.licenseNumber
    ensures u.logo.Some? ==> r.logo == u.logo.value
    ensures u.logo.None? ==> r.logo == s.logo
    ensures u.pricing.Some? ==> r.pricing == u.pricing.value
    ensures u.pricing.None? ==> r.pricing == s.pricing
  {
    CompanySettings(
      name := Pick(u.name, s.name),
      address := Pick(u.address, s.address),
      phone := Pick(u.phone, s.phone),
      email := Pick(u.email, s.email),
      website := Pick(u.website, s.website),
      licenseNumber := Pick(u.licenseNumber, s.licenseNumber),
      logo := Pick(u.logo, s.logo),
      pricing := Pick(u.pricing, s.pricing))
  }

  /** One update after another: the later update's keys win. */
  function ThenSettings(u: SettingsUpdate, v: SettingsUpdate): SettingsUpdate
  {
    SettingsUpdate(Later(u.name, v.name), Later(u.address, v.address), Later(u.phone, v.phone),
      Later(u.email, v.email), Later(u.website, v.website), Later(u.licenseNumber, v.licenseNumber),
      Later(u.logo, v.logo), Later(u.pricing, v.pricing))
  }

  /** An empty update changes nothing, and merging the same update twice is merging it once. */
  lemma MergeSettingsIdentityIdempotent(s: CompanySettings, u: SettingsUpdate)
    ensures MergeSettings(s, NoSettingsUpdate) == s
    ensures MergeSettings(MergeSettings(s, u), u) == MergeSettings(s, u)
  {
  }

  /** Two successive merges are one merge of the combined update. */
  lemma MergeSettingsCompose(s: CompanySettings, u: SettingsUpdate, v: SettingsUpdate)
    ensures MergeSettings(MergeSettings(s, u), v) == MergeSettings(s, ThenSettings(u, v))
  {
  }

  /** `Partial<PricingSettings>`. */
  datatype PricingUpdate = PricingUpdate(
    interiorSqft: Option<InteriorSqftRates>,
    exteriorSqft: Option<ExteriorSqftRates>,
    interiorPaint: Option<InteriorPaintPrices>,
    exteriorPaint: Option<ExteriorPaintPrices>,
    interiorCoverage: Option<InteriorCoverage>,
    exteriorCoverage: Option<ExteriorCoverage>,
    interiorMultipliers: Option<InteriorMultipliers>,
    exteriorMultipliers: Option<ExteriorMultipliers>,
    markupOptions: Option<seq<int>>,
    crewRates: Option<seq<CrewRate>>,
    jobDurationFormulaText: Option<string>,
    jobDurationExampleText: Option<string>,
    lineItems: Option<seq<LineItemConfig>>,
    sections: Option<seq<SectionConfig>>)

  const NoPricingUpdate: PricingUpdate :=
    PricingUpdate(None, None, None, None, None, None, None, None, None, None, None, None, None, None)

  /** `{ ...pricing, ...updates }`: every key the update carries replaces
      the current value, every other key keeps it. */
  function MergePricing(p: PricingSettings, u: PricingUpdate): (r: PricingSettings)
    ensures u.interiorSqft.Some? ==> r.interiorSqft == u.interiorSqft.value
    ensures u.interiorSqft.None? ==> r.interiorSqft == p.interiorSqft
    ensures u.exteriorSqft.Some? ==> r.exteriorSqft == u.exteriorSqft.value
    ensures u.exteriorSqft.None? ==> r.exteriorSqft == p.exteriorSqft
    ensures u.interiorPaint.Some? ==> r.interiorPaint == u.interiorPaint.value
    ensures u.interiorPaint.None? ==> r.interiorPaint == p.interiorPaint
    ensures u.exteriorPaint.Some? ==> r.exteriorPaint == u.exteriorPaint.value
    ensures u.exteriorPaint.None? ==> r.exteriorPaint == p.exteriorPaint
    ensures u.interiorCoverage.Some? ==> r.interiorCoverage == u.interiorCoverage.value
    ensures u.interiorCoverage.None? ==> r.interiorCoverage == p.interiorCoverage
    ensures u.exteriorCoverage.Some? ==> r.exteriorCoverage == u.exteriorCoverage.value
    ensures u.exteriorCoverage.None? ==> r.exteriorCoverage == p.exteriorCoverage
    ensures u.interiorMultipliers.Some? ==> r.interiorMultipliers == u.interiorMultipliers.value
    ensures u.interiorMultipliers.None? ==> r.interiorMultipliers == p.interiorMultipliers
    ensures u.exteriorMultipliers.Some? ==> r.exteriorMultipliers == u.exteriorMultipliers.value
    ensures u.exteriorMultipliers.None? ==> r.exteriorMultipliers == p.exteriorMultipliers
    ensures u.markupOptions.Some? ==> r.markupOptions == u.markupOptions.value
    ensures u.markupOptions.None? ==> r.markupOptions == p.markupOptions
    ensures u.crewRates.Some? ==> r.crewRates == u.crewRates.value
    ensures u.crewRates.None? ==> r.crewRates == p.crewRates
    ensures u.jobDurationFormulaText.Some? ==> r.jobDurationFormulaText == u.jobDurationFormulaText.value
    ensures u.jobDurationFormulaText.None? ==> r.jobDurationFormulaText == p.jobDurationFormulaText
    ensures u.jobDurationExampleText.Some? ==> r.jobDurationExampleText == u.jobDurationExampleText.value
    ensures u.jobDurationExampleText.None? ==> r.jobDurationExampleText == p.jobDurationExampleText
    ensures u.lineItems.Some? ==> r.lineItems == u.lineItems.value
    ensures u.lineItems.None? ==> r.lineItems == p.lineItems
    ensures u.sections.Some? ==> r.sections == u.sections.value
    ensures u.sections.None? ==> r.sections == p.sections
  {
    PricingSettings(
      interiorSqft := Pick(u.interiorSqft, p.interiorSqft),
      exteriorSqft := Pick(u.exteriorSqft, p.exteriorSqft),
      interiorPaint := Pick(u.interiorPaint, p.interiorPaint),
      exteriorPaint := Pick(u.exteriorPaint, p.exteriorPaint),
      interiorCoverage := Pick(u.interiorCoverage, p.interiorCoverage),
      exteriorCoverage := Pick(u.exteriorCoverage, p.exteriorCoverage),
      interiorMultipliers := Pick(u.interiorMultipliers, p.interiorMultipliers),
      exteriorMultipliers := Pick(u.exteriorMultipliers, p.exteriorMultipliers),
      markupOptions := Pick(u.markupOptions, p.markupOptions),
      crewRates := Pick(u.crewRates, p.crewRates),
      jobDurationFormulaText := Pick(u.jobDurationFormulaText, p.jobDurationFormulaText),
      jobDurationExampleText := Pick(u.jobDurationExampleText, p.jobDurationExampleText),
      lineItems := Pick(u.lineItems, p.lineItems),
      sections := Pick(u.sections, p.sections))
  }

  /** `updatePricing`: the pricing is merged, the rest of the settings kept. */
  function WithPricingUpdated(s: CompanySettings, u: PricingUpdate): (r: CompanySettings)
    ensures r.pricing == MergePricing(s.pricing, u)
    ensures r == s.(pricing := r.pricing)
    ensures u.lineItems.None? ==> r.pricing.lineItems == s.pricing.lineItems
    ensures u.sections.None? ==> r.pricing.sections == s.pricing.sections
  {
    s.(pricing := MergePricing(s.pricing, u))
  }

  /** An empty pricing update changes nothing; repeating an update changes nothing more. */
  lemma MergePricingIdentityIdempotent(p: PricingSettings, u: PricingUpdate)
    ensures MergePricing(p, NoPricingUpdate) == p
    ensures MergePricing(MergePricing(p, u), u) == MergePricing(p, u)
  {
  }

  // ---------------------------------------------------------------------
  // Line items

  /** `Omit<LineItemConfig, 'id' | 'order'>`: what the caller supplies. */
  datatype NewLineItem = NewLineItem(name: string, rate: real, unit: LineItemUnit, category: string, isDefault: bool)

  /** `Partial<LineItemConfig>`. */
  datatype LineItemUpdate = LineItemUpdate(
    id: Option<string>,
    name: Option<string>,
    rate: Option<real>,
    unit: Option<LineItemUnit>,
    category: Option<string>,
    isDefault: Option<bool>,
    order: Option<int>)

  /** `Math.max(...orders, 0)`. */
  function MaxOrder(orders: seq<int>): (m: int)
    ensures m >= 0
    ensures forall i :: 0 <= i < |orders| ==> orders[i] <= m
    ensures m == 0 || m in orders
  {
    if orders == [] then 0
    else
      var rest := MaxOrder(orders[1..]);
      if orders[0] > rest then orders[0] else rest
  }

  function LineItemOrders(items: seq<LineItemConfig>): (r: seq<int>)
    ensures |r| == |items| && forall i :: 0 <= i < |items| ==> r[i] == items[i].order
  {
    seq(|items|, i requires 0 <= i < |items| => items[i].order)
  }

  function SectionOrders(sections: seq<SectionConfig>): (r: seq<int>)
    ensures |r| == |sections| && forall i :: 0 <= i < |sections| ==> r[i] == sections[i].order
  {
    seq(|sections|, i requires 0 <= i < |sections| => sections[i].order)
  }

  /** The order a new entry receives: one more than the largest order, and 1
      on an empty list or when no order is positive. */
  function NextOrder(orders: seq<int>): (n: int)
    ensures n >= 1
    ensures forall i :: 0 <= i < |orders| ==> orders[i] < n
    ensures (forall i :: 0 <= i < |orders| ==> orders[i] <= 0) ==> n == 1
    ensures n == 1 || n - 1 in orders
  {
    MaxOrder(orders) + 1
  }

  /** `addLineItem` with the generated id passed in: the new item goes at the
      end, after every existing one, and nothing else changes. */
  function WithLineItem(s: CompanySettings, item: NewLineItem, id: string): (r: CompanySettings)
    ensures var before := s.pricing.lineItems; var items := r.pricing.lineItems;
            && |items| == |before| + 1
            && items[..|before|] == before
            && items[|before|] == LineItemConfig(id, item.name, item.rate, item.unit, item.category, item.isDefault,
                                               NextOrder(LineItemOrders(before)))
            && (forall i :: 0 <= i < |before| ==> before[i].order < items[|before|].order)
            && items[|before|].order >= 1
    ensures r == s.(pricing := s.pricing.(lineItems := r.pricing.lineItems))
  {
    var currentItems := s.pricing.lineItems;
    var newItem := LineItemConfig(id, item.name, item.rate, item.unit, item.category, item.isDefault,
                                  NextOrder(LineItemOrders(currentItems)));
    assert (currentItems + [newItem])[..|currentItems|] == currentItems;
    s.(pricing := s.pricing.(lineItems := currentItems + [newItem]))
  }

  /** `{ ...item, ...updates }`. */
  function MergeLineItem(item: LineItemConfig, u: LineItemUpdate): LineItemConfig
  {
    LineItemConfig(Pick(u.id, item.id), Pick(u.name, item.name), Pick(u.rate, item.rate), Pick(u.unit, item.unit),
      Pick(u.category, item.category), Pick(u.isDefault, item.isDefault), Pick(u.order, item.order))
  }

  function LineItemIdIs(id: string): LineItemConfig -> bool
  {
    (item: LineItemConfig) => item.id == id
  }

  function LineItemIdIsNot(id: string): LineItemConfig -> bool
  {
    (item: LineItemConfig) => item.id != id
  }

  function LineItemMerger(u: LineItemUpdate): LineItemConfig -> LineItemConfig
  {
    (item: LineItemConfig) => MergeLineItem(item, u)
  }

  /** `updateLineItem`: every item with the id is merged with the update, the
      others are kept in place, and nothing outside the line items changes. */
  function WithLineItemUpdated(s: CompanySettings, id: string, u: LineItemUpdate): (r: CompanySettings)
    ensures var before := s.pricing.lineItems; var items := r.pricing.lineItems;
            && |items| == |before|
            && forall i :: 0 <= i < |before| ==>
                 items[i] == if before[i].id == id then MergeLineItem(before[i], u) else before[i]
    ensures r == s.(pricing := s.pricing.(lineItems := r.pricing.lineItems))
  {
    s.(pricing := s.pricing.(lineItems := MapWhere(s.pricing.lineItems, LineItemIdIs(id), LineItemMerger(u))))
  }

  /** Updating an id no item has changes nothing. */
  lemma UpdateAbsentLineItem(s: CompanySettings, id: string, u: LineItemUpdate)
    requires forall i :: 0 <= i < |s.pricing.lineItems| ==> s.pricing.lineItems[i].id != id
    ensures WithLineItemUpdated(s, id, u) == s
  {
    var r := WithLineItemUpdated(s, id, u);
    assert r.pricing.lineItems == s.pricing.lineItems;
  }

  /** Applying the same line-item update twice is applying it once, even
      when the update renames the id. */
  lemma UpdateLineItemIdempotent(s: CompanySettings, id: string, u: LineItemUpdate)
    ensures WithLineItemUpdated(WithLineItemUpdated(s, id, u), id, u) == WithLineItemUpdated(s, id, u)
  {
    MapWhereIdempotent(s.pricing.lineItems, LineItemIdIs(id), LineItemMerger(u));
  }

  /** `deleteLineItem`'s guard: the first item with the id is a default item. */
  predicate FirstLineItemIsDefault(items: seq<LineItemConfig>, id: string)
  {
    var found := Find(items, LineItemIdIs(id));
    found.Some? && found.value.isDefault
  }

  /** Filtering out an id leaves no item with it, keeps every item with another id, and adds nothing. */
  lemma FilterOutLineItemId(items: seq<LineItemConfig>, id: string)
    ensures var kept := Filter(items, LineItemIdIsNot(id));
            && (forall i :: 0 <= i < |kept| ==> kept[i].id != id && kept[i] in items)
            && (forall i :: 0 <= i < |items| && items[i].id != id ==> items[i] in kept)
  {
    var kept := Filter(items, LineItemIdIsNot(id));
    forall i | 0 <= i < |kept| ensures kept[i].id != id {
      assert LineItemIdIsNot(id)(kept[i]);
    }
    forall i | 0 <= i < |items| && items[i].id != id ensures items[i] in kept {
      assert LineItemIdIsNot(id)(items[i]);
    }
  }

  /** `deleteLineItem`: refused (nothing changes) when the first item with the
      id is a default item. Otherwise no item with the id remains, every item
      with another id remains, in its original order, nothing new appears,
      and nothing outside the line items changes. */
  function WithoutLineItem(s: CompanySettings, id: string): (r: CompanySettings)
    ensures FirstLineItemIsDefault(s.pricing.lineItems, id) ==> r == s
    ensures !FirstLineItemIsDefault(s.pricing.lineItems, id) ==>
              var before := s.pricing.lineItems; var items := r.pricing.lineItems;
              && (forall i :: 0 <= i < |items| ==> items[i].id != id && items[i] in before)
              && (forall i :: 0 <= i < |before| && before[i].id != id ==> before[i] in items)
              && items == Filter(before, LineItemIdIsNot(id))
    ensures r == s.(pricing := s.pricing.(lineItems := r.pricing.lineItems))
  {
    if FirstLineItemIsDefault(s.pricing.lineItems, id) then s
    else
      FilterOutLineItemId(s.pricing.lineItems, id);
      s.(pricing := s.pricing.(lineItems := Filter(s.pricing.lineItems, LineItemIdIsNot(id))))
  }

  /** A default item is never deleted while it is the first with its id. */
  lemma DeleteDefaultLineItemRefused(s: CompanySettings, k: nat)
    requires k < |s.pricing.lineItems| && s.pricing.lineItems[k].isDefault
    requires forall j :: 0 <= j < k ==> s.pricing.lineItems[j].id != s.pricing.lineItems[k].id
    ensures WithoutLineItem(s, s.pricing.lineItems[k].id) == s
  {
    var items, id := s.pricing.lineItems, s.pricing.lineItems[k].id;
    assert LineItemIdIs(id)(items[k]);
    assert forall j :: 0 <= j < k ==> !LineItemIdIs(id)(items[j]);
    assert FirstIndex(items, LineItemIdIs(id)) == Some(k);
  }

  /** Fresh ids keep the line-item ids distinct. */
  lemma AddLineItemKeepsIdsDistinct(s: CompanySettings, item: NewLineItem, id: string)
    requires DistinctIds(s.pricing.lineItems)
    requires forall i :: 0 <= i < |s.pricing.lineItems| ==> s.pricing.lineItems[i].id != id
    ensures DistinctIds(WithLineItem(s, item, id).pricing.lineItems)
  {
    var before, items := s.pricing.lineItems, WithLineItem(s, item, id).pricing.lineItems;
    forall i, j | 0 <= i < j < |items| ensures items[i].id != items[j].id {
      assert items[i] == before[i];
      if j < |before| { assert items[j] == before[j]; }
    }
  }

  // ---------------------------------------------------------------------
  // Sections

  /** `Omit<SectionConfig, 'id' | 'order'>`. */
  datatype NewSection = NewSection(name: string, calculatorType: CalculatorType, isDefault: bool)

  /** `Partial<SectionConfig>`. */
  datatype SectionUpdate = SectionUpdate(
    id: Option<string>,
    name: Option<string>,
    calculatorType: Option<CalculatorType>,
    isDefault: Option<bool>,
    order: Option<int>)

  /** `addSection` with the generated id passed in: appended after every
      existing section, nothing else changes. */
  function WithSection(s: CompanySettings, section: NewSection, id: string): (r: CompanySettings)
    ensures var before := s.pricing.sections; var secs := r.pricing.sections;
            && |secs| == |before| + 1
            && secs[..|before|] == before
            && secs[|before|] == SectionConfig(id, section.name, section.calculatorType, section.isDefault,
                                             NextOrder(SectionOrders(before)))
            && (forall i :: 0 <= i < |before| ==> before[i].order < secs[|before|].order)
            && secs[|before|].order >= 1
    ensures r == s.(pricing := s.pricing.(sections := r.pricing.sections))
  {
    var currentSections := s.pricing.sections;
    var newSection := SectionConfig(id, section.name, section.calculatorType, section.isDefault,
                                    NextOrder(SectionOrders(currentSections)));
    assert (currentSections + [newSection])[..|currentSections|] == currentSections;
    s.(pricing := s.pricing.(sections := currentSections + [newSection]))
  }

  function MergeSection(section: SectionConfig, u: SectionUpdate): SectionConfig
  {
    SectionConfig(Pick(u.id, section.id), Pick(u.name, section.name), Pick(u.calculatorType, section.calculatorType),
      Pick(u.isDefault, section.isDefault), Pick(u.order, section.order))
  }

  function SectionIdIs(id: string): SectionConfig -> bool
  {
    (section: SectionConfig) => section.id == id
  }

  function SectionIdIsNot(id: string): SectionConfig -> bool
  {
    (section: SectionConfig) => section.id != id
  }

  function SectionMerger(u: SectionUpdate): SectionConfig -> SectionConfig
  {
    (section: SectionConfig) => MergeSection(section, u)
  }

  function NotInSection(id: string): LineItemConfig -> bool
  {
    (item: LineItemConfig) => item.category != id
  }

  /** `updateSection`: every section with the id is merged with the update,
      the others are kept in place, and nothing outside the sections changes. */
  function WithSectionUpdated(s: CompanySettings, id: string, u: SectionUpdate): (r: CompanySettings)
    ensures var before := s.pricing.sections; var secs := r.pricing.sections;
            && |secs| == |before|
            && forall i :: 0 <= i < |before| ==>
                 secs[i] == if before[i].id == id then MergeSection(before[i], u) else before[i]
    ensures r == s.(pricing := s.pricing.(sections := r.pricing.sections))
  {
    s.(pricing := s.pricing.(sections := MapWhere(s.pricing.sections, SectionIdIs(id), SectionMerger(u))))
  }

  /** `deleteSection`'s guard: the first section with the id is a default section. */
  predicate FirstSectionIsDefault(sections: seq<SectionConfig>, id: string)
  {
    var found := Find(sections, SectionIdIs(id));
    found.Some? && found.value.isDefault
  }

  /** Filtering out a section id leaves no section with it and keeps every
      other section; filtering out its category leaves no line item filed
      under it and keeps every other item; neither adds anything. */
  lemma FilterOutSectionId(p: PricingSettings, id: string)
    ensures var secs := Filter(p.sections, SectionIdIsNot(id));
            && (forall i :: 0 <= i < |secs| ==> secs[i].id != id && secs[i] in p.sections)
            && (forall i :: 0 <= i < |p.sections| && p.sections[i].id != id ==> p.sections[i] in secs)
    ensures var items := Filter(p.lineItems, NotInSection(id));
            && (forall i :: 0 <= i < |items| ==> items[i].category != id && items[i] in p.lineItems)
            && (forall i :: 0 <= i < |p.lineItems| && p.lineItems[i].category != id ==> p.lineItems[i] in items)
  {
    var secs := Filter(p.sections, SectionIdIsNot(id));
    forall i | 0 <= i < |secs| ensures secs[i].id != id {
      assert SectionIdIsNot(id)(secs[i]);
    }
    forall i | 0 <= i < |p.sections| && p.sections[i].id != id ensures p.sections[i] in secs {
      assert SectionIdIsNot(id)(p.sections[i]);
    }
    var items := Filter(p.lineItems, NotInSection(id));
    forall i | 0 <= i < |items| ensures items[i].category != id {
      assert NotInSection(id)(items[i]);
    }
    forall i | 0 <= i < |p.lineItems| && p.lineItems[i].category != id ensures p.lineItems[i] in items {
      assert NotInSection(id)(p.lineItems[i]);
    }
  }

  /** `deleteSection`: refused (nothing changes) when the first section with
      the id is a default section. Otherwise no section with the id remains
      and no line item filed under it, every other section and every item
      filed elsewhere remain in their original order, nothing new appears,
      and nothing outside the sections and line items changes. */
  function WithoutSection(s: CompanySettings, id: string): (r: CompanySettings)
    ensures FirstSectionIsDefault(s.pricing.sections, id) ==> r == s
    ensures !FirstSectionIsDefault(s.pricing.sections, id) ==>
              var p, q := s.pricing, r.pricing;
              && (forall i :: 0 <= i < |q.sections| ==> q.sections[i].id != id && q.sections[i] in p.sections)
              && (forall i :: 0 <= i < |p.sections| && p.sections[i].id != id ==> p.sections[i] in q.sections)
              && (forall i :: 0 <= i < |q.lineItems| ==> q.lineItems[i].category != id && q.lineItems[i] in p.lineItems)
              && (forall i :: 0 <= i < |p.lineItems| && p.lineItems[i].category != id ==> p.lineItems[i] in q.lineItems)
              && q.sections == Filter(p.sections, SectionIdIsNot(id))
              && q.lineItems == Filter(p.lineItems, NotInSection(id))
    ensures r == s.(pricing := s.pricing.(sections := r.pricing.sections, lineItems := r.pricing.lineItems))
  {
    if FirstSectionIsDefault(s.pricing.sections, id) then s
    else
      FilterOutSectionId(s.pricing, id);
      s.(pricing := s.pricing.(sections := Filter(s.pricing.sections, SectionIdIsNot(id)),
                               lineItems := Filter(s.pricing.lineItems, NotInSection(id))))
  }

  /** Every line item names an existing section as its category. */
  predicate ItemsFiled(p: PricingSettings)
  {
    forall i :: 0 <= i < |p.lineItems| ==> FiledUnder(p.lineItems[i], p.sections)
  }

  /** The cascade keeps the line items filed: deleting a section never
      leaves an item pointing at a section that is gone. */
  lemma DeleteSectionKeepsItemsFiled(s: CompanySettings, id: string)
    requires ItemsFiled(s.pricing)
    ensures ItemsFiled(WithoutSection(s, id).pricing)
  {
    if !FirstSectionIsDefault(s.pricing.sections, id) {
      var p := WithoutSection(s, id).pricing;
      forall i | 0 <= i < |p.lineItems| ensures FiledUnder(p.lineItems[i], p.sections) {
        var item := p.lineItems[i];
        assert NotInSection(id)(item);
        var k :| 0 <= k < |s.pricing.lineItems| && s.pricing.lineItems[k] == item;
        assert FiledUnder(s.pricing.lineItems[k], s.pricing.sections);
        var j :| 0 <= j < |s.pricing.sections| && s.pricing.sections[j].id == item.category;
        assert SectionIdIsNot(id)(s.pricing.sections[j]);
        var sec := s.pricing.sections[j];
        assert sec in p.sections;
        var j' :| 0 <= j' < |p.sections| && p.sections[j'] == sec;
      }
    }
  }

  /** A new line item filed under an existing section keeps every item filed. */
  lemma AddLineItemKeepsItemsFiled(s: CompanySettings, item: NewLineItem, id: string)
    requires ItemsFiled(s.pricing)
    requires exists j :: 0 <= j < |s.pricing.sections| && s.pricing.sections[j].id == item.category
    ensures ItemsFiled(WithLineItem(s, item, id).pricing)
  {
    var p := WithLineItem(s, item, id).pricing;
    forall i | 0 <= i < |p.lineItems| ensures FiledUnder(p.lineItems[i], p.sections) {
      if i < |s.pricing.lineItems| {
        assert p.lineItems[i] == s.pricing.lineItems[i];
      }
    }
  }

  // ---------------------------------------------------------------------
  // The store

  /** The zustand settings store: one `settings` field that every action replaces. */
  class Store {
    var settings: CompanySettings

    constructor()
      ensures settings == GetDefaultCompanySettings()
    {
      settings := GetDefaultCompanySettings();
    }

    method UpdateSettings(updates: SettingsUpdate)
      modifies this
      ensures settings == MergeSettings(old(settings), updates)
    {
      settings := MergeSettings(settings, updates);
    }

    method UpdatePricing(updates: PricingUpdate)
      modifies this
      ensures settings == WithPricingUpdated(old(settings), updates)
    {
      settings := WithPricingUpdated(settings, updates);
    }

    /** The id `custom-<time>-<random>` is generated by the caller. */
    method AddLineItem(item: NewLineItem, id: string)
      modifies this
      ensures settings == WithLineItem(old(settings), item, id)
    {
      settings := WithLineItem(settings, item, id);
    }

    method UpdateLineItem(id: string, updates: LineItemUpdate)
      modifies this
      ensures settings == WithLineItemUpdated(old(settings), id, updates)
    {
      settings := WithLineItemUpdated(settings, id, updates);
    }

    method DeleteLineItem(id: string)
      modifies this
      ensures settings == WithoutLineItem(old(settings), id)
    {
      settings := WithoutLineItem(settings, id);
    }

    method AddSection(section: NewSection, id: string)
      modifies this
      ensures settings == WithSection(old(settings), section, id)
    {
      settings := WithSection(settings, section, id);
    }

    method UpdateSection(id: string, updates: SectionUpdate)
      modifies this
      ensures settings == WithSectionUpdated(old(settings), id, updates)
    {
      settings := WithSectionUpdated(settings, id, updates);
    }

    method DeleteSection(id: string)
      modifies this
      ensures settings == WithoutSection(old(settings), id)
    {
      settings := WithoutSection(settings, id);
    }

    method ResetSettings()
      modifies this
      ensures settings == GetDefaultCompanySettings()
    {
      settings := GetDefaultCompanySettings();
    }
  }
}

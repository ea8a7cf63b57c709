/** Adapting bids saved before the detailed calculators carried a
    `houseSquareFootage` input: such bids gain the field set to 0. */
module BidMigration {
  import opened Seqs
  import opened CalculatorTypes
  import opened SettingsTypes
  import opened BidTypes

  /** The stored inputs' `houseSquareFootage`, when the field is present. */
  function HouseSquareFootage(inputs: CalculatorInputs): Option<real>
  {
    match inputs
    case InteriorSqftIn(i) => Some(i.houseSquareFootage)
    case InteriorDetailedIn(_, h) => h
    case ExteriorSqftIn(e) => Some(e.houseSquareFootage)
    case ExteriorDetailedIn(_, h) => h
  }

  /** `{ ...inputs, houseSquareFootage: v }`. */
  function WithHouseSquareFootage(inputs: CalculatorInputs, v: real): (r: CalculatorInputs)
    ensures HouseSquareFootage(r) == Some(v)
    ensures SameExceptHouseSquareFootage(inputs, r)
  {
    match inputs
    case InteriorSqftIn(i) => InteriorSqftIn(i.(houseSquareFootage := v))
    case InteriorDetailedIn(d, _) => InteriorDetailedIn(d, Some(v))
    case ExteriorSqftIn(e) => ExteriorSqftIn(e.(houseSquareFootage := v))
    case ExteriorDetailedIn(d, _) => ExteriorDetailedIn(d, Some(v))
  }

  /** Two inputs of the same calculator that agree on everything but the house area. */
  predicate SameExceptHouseSquareFootage(a: CalculatorInputs, b: CalculatorInputs)
  {
    match a
    case InteriorSqftIn(i) =>
      b.InteriorSqftIn? && b.interiorSqft.(houseSquareFootage := i.houseSquareFootage) == i
    case InteriorDetailedIn(d, _) => b.InteriorDetailedIn? && b.interiorDetailed == d
    case ExteriorSqftIn(e) =>
      b.ExteriorSqftIn? && b.exteriorSqft.(houseSquareFootage := e.houseSquareFootage) == e
    case ExteriorDetailedIn(d, _) => b.ExteriorDetailedIn? && b.exteriorDetailed == d
  }

  /** `migrateInteriorDetailedBid`: only the inputs change, gaining a zero area. */
  function MigrateInteriorDetailedBid(bid: Bid, pricing: PricingSettings): (r: Bid)
    ensures r.(inputs := bid.inputs) == bid
    ensures HouseSquareFootage(r.inputs) == Some(0.0)
    ensures SameExceptHouseSquareFootage(bid.inputs, r.inputs)
  {
    bid.(inputs := WithHouseSquareFootage(bid.inputs, 0.0))
  }

  /** `migrateExteriorDetailedBid`: only the inputs change, gaining a zero area. */
  function MigrateExteriorDetailedBid(bid: Bid, pricing: PricingSettings): (r: Bid)
    ensures r.(inputs := bid.inputs) == bid
    ensures HouseSquareFootage(r.inputs) == Some(0.0)
    ensures SameExceptHouseSquareFootage(bid.inputs, r.inputs)
  {
    bid.(inputs := WithHouseSquareFootage(bid.inputs, 0.0))
  }

  /** A bid in the current format: a square-footage bid, or one whose
      inputs carry the house area. */
  predicate MigrationCurrent(bid: Bid)
  {
    IsSqftCalculator(bid.calculatorType) || HouseSquareFootage(bid.inputs).Some?
  }

  /** `migrateBidToCurrentVersion`. The dispatch is on the bid's calculator
      type; the field test is on whatever inputs were stored. */
  function MigrateBidToCurrentVersion(bid: Bid, pricing: PricingSettings): (r: Bid)
    ensures r.(inputs := bid.inputs) == bid
    ensures MigrationCurrent(r)
    ensures MigrationCurrent(bid) ==> r == bid
    ensures !MigrationCurrent(bid) ==>
              HouseSquareFootage(r.inputs) == Some(0.0) && SameExceptHouseSquareFootage(bid.inputs, r.inputs)
  {
    if bid.calculatorType == InteriorSqftCalculator || bid.calculatorType == ExteriorSqftCalculator then bid
    else if HouseSquareFootage(bid.inputs).Some? then bid
    else if bid.calculatorType == InteriorDetailedCalculator then MigrateInteriorDetailedBid(bid, pricing)
    else MigrateExteriorDetailedBid(bid, pricing)
  }

  /** `migrateSavedBids`: element-wise migration, length and order kept.
      Only inputs change; a bid that was already current is kept as it is,
      and every bid comes out current: a square-footage bid or one that
      carries the house area. */
  function MigrateSavedBids(bids: seq<Bid>, pricing: PricingSettings): (r: seq<Bid>)
    ensures |r| == |bids|
    ensures forall i :: 0 <= i < |bids| ==> r[i].(inputs := bids[i].inputs) == bids[i]
    ensures forall i :: 0 <= i < |bids| && MigrationCurrent(bids[i]) ==> r[i] == bids[i]
    ensures forall i :: 0 <= i < |r| ==> MigrationCurrent(r[i])
  {
    seq(|bids|, i requires 0 <= i < |bids| => MigrateBidToCurrentVersion(bids[i], pricing))
  }

  /** Square-footage bids and bids that already carry the field come back unchanged. */
  lemma UnchangedWhenCurrent(bid: Bid, pricing: PricingSettings)
    requires IsSqftCalculator(bid.calculatorType) || HouseSquareFootage(bid.inputs).Some?
    ensures MigrateBidToCurrentVersion(bid, pricing) == bid
  {
  }

  /** A detailed bid lacking the field gains it with value 0; nothing else
      about the bid changes. */
  lemma DetailedBidGainsZeroArea(bid: Bid, pricing: PricingSettings)
    requires !IsSqftCalculator(bid.calculatorType) && HouseSquareFootage(bid.inputs).None?
    ensures var r := MigrateBidToCurrentVersion(bid, pricing);
            && r != bid
            && HouseSquareFootage(r.inputs) == Some(0.0)
            && SameExceptHouseSquareFootage(bid.inputs, r.inputs)
            && r.(inputs := bid.inputs) == bid
  {
  }

  /** A migrated bid is current: migrating it again changes nothing. */
  lemma MigrationIdempotent(bid: Bid, pricing: PricingSettings)
    ensures var once := MigrateBidToCurrentVersion(bid, pricing);
            MigrateBidToCurrentVersion(once, pricing) == once
  {
    var once := MigrateBidToCurrentVersion(bid, pricing);
    if !IsSqftCalculator(bid.calculatorType) && HouseSquareFootage(bid.inputs).None? {
      assert once.calculatorType == bid.calculatorType;
      assert HouseSquareFootage(once.inputs).Some?;
    }
  }

  lemma {:induction false} SavedBidsIdempotent(bids: seq<Bid>, pricing: PricingSettings)
    ensures var once := MigrateSavedBids(bids, pricing);
            MigrateSavedBids(once, pricing) == once
  {
    var once := MigrateSavedBids(bids, pricing);
    forall i | 0 <= i < |bids|
      ensures MigrateBidToCurrentVersion(once[i], pricing) == once[i]
    {
      MigrationIdempotent(bids[i], pricing);
    }
  }

  /** The pricing settings passed in have no effect on the migration. */
  lemma PricingIrrelevant(bids: seq<Bid>, p: PricingSettings, q: PricingSettings)
    ensures MigrateSavedBids(bids, p) == MigrateSavedBids(bids, q)
  {
  }

  /** A bid whose inputs match its calculator type carries the field once migrated. */
  lemma MigratedBidHasArea(bid: Bid, pricing: PricingSettings)
    requires InputsMatchType(bid.calculatorType, bid.inputs)
    ensures HouseSquareFootage(MigrateBidToCurrentVersion(bid, pricing).inputs).Some?
  {
  }

  /** Migration keeps each bid's identity, type, customer, result and times. */
  lemma SavedBidsKeepIdentity(bids: seq<Bid>, pricing: PricingSettings, i: nat)
    requires i < |bids|
    ensures var r := MigrateSavedBids(bids, pricing)[i];
            r.id == bids[i].id && r.calculatorType == bids[i].calculatorType
            && r.customer == bids[i].customer && r.result == bids[i].result
            && r.createdAt == bids[i].createdAt && r.updatedAt == bids[i].updatedAt
  {
  }
}

/** Saved bids: the customer, the calculator inputs and the result, with
    creation and update times in milliseconds since the epoch. */
module BidTypes {
  import opened Seqs
  import opened CalculatorTypes

  datatype CustomerInfo = CustomerInfo(
    name: string,
    address: string,
    phone: string,
    email: Option<string>,
    jobDate: Option<int>,
    notes: Option<string>)

  /** The inputs of any of the four calculators. Bids stored before the
      detailed calculators gained an auto-measure field lack
      `houseSquareFootage`; newer ones may carry it alongside the detailed
      inputs. */
  datatype CalculatorInputs =
    | InteriorSqftIn(interiorSqft: InteriorSqftInputs)
    | InteriorDetailedIn(interiorDetailed: InteriorDetailedInputs, interiorHouseSqft: Option<real>)
    | ExteriorSqftIn(exteriorSqft: ExteriorSqftInputs)
    | ExteriorDetailedIn(exteriorDetailed: ExteriorDetailedInputs, exteriorHouseSqft: Option<real>)

  datatype Bid = Bid(
    id: string,
    calculatorType: CalculatorType,
    customer: CustomerInfo,
    inputs: CalculatorInputs,
    result: BidResult,
    createdAt: int,
    updatedAt: int)

  /** The fields of a bid before the store assigns its id and times. */
  datatype BidDraft = BidDraft(
    calculatorType: CalculatorType,
    customer: CustomerInfo,
    inputs: CalculatorInputs,
    result: BidResult)

  /** One row of the saved-bids listing. */
  datatype BidListItem = BidListItem(
    id: string,
    customerName: string,
    total: real,
    createdAt: int,
    calculatorType: CalculatorType)

  /** The inputs variant a calculator type stores. */
  predicate InputsMatchType(t: CalculatorType, inputs: CalculatorInputs)
  {
    match t
    case InteriorSqftCalculator => inputs.InteriorSqftIn?
    case InteriorDetailedCalculator => inputs.InteriorDetailedIn?
    case ExteriorSqftCalculator => inputs.ExteriorSqftIn?
    case ExteriorDetailedCalculator => inputs.ExteriorDetailedIn?
  }
}

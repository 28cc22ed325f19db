/** The quote calculation (`calculateCosts` in src/components/QuoteSummary.tsx)
    and the filter that chooses which breakdown rows the summary shows.

    The calculation looks rates up in five tables keyed by strings, multiplies
    them by the square footage or a count, adds fixed per-unit charges, and
    returns an 18-row breakdown, the total, the margin and the final quote.
    No discount is computed or subtracted. A key missing from a table makes
    its row, the total, the margin and the final quote NaN. */
module Pricing {
  import opened JsNumber
  import opened Quotes

  // ----- Rate tables -----

  /** Price per square foot by flooring type. */
  const FloorRates: map<string, real> := map[
    "tile" := 0.10,
    "rubber" := 0.16,
    "carpet" := 0.12,
    "hardwood" := 0.10,
    "mixed" := 0.15,
    "concrete" := 0.10,
    "specialty" := 0.20]

  /** Price per bathroom by bathroom type. */
  const BathroomRates: map<string, real> := map[
    "standard" := 45.0,
    "commercial" := 70.0,
    "locker" := 100.0]

  /** Extra price per square foot by building age. */
  const BuildingAgeAdders: map<string, real> := map[
    "0-5" := 0.0,
    "5-15" := 0.01,
    "15+" := 0.03]

  /** Extra price per square foot by difficulty. */
  const DifficultyAdders: map<string, real> := map[
    "easy" := 0.0,
    "difficult" := 0.03,
    "extreme" := 0.07]

  /** Extra price per square foot by daily foot traffic. */
  const FootTrafficAdders: map<string, real> := map[
    "low" := 0.0,
    "medium" := 0.01,
    "high" := 0.03]

  /** `table[key]` used as a factor: a missing key reads as `undefined`,
      which turns the product into NaN. */
  function Rate(table: map<string, real>, key: string): Num {
    if key in table then Finite(table[key]) else NaN
  }

  /** `quantity * table[key]`. */
  function Scaled(quantity: real, table: map<string, real>, key: string): Num {
    Mul(Finite(quantity), Rate(table, key))
  }

  /** `totalCost * (marginPercent / 100)`. */
  function Margin(totalCost: Num, marginPercent: real): Num {
    Mul(totalCost, Finite(marginPercent / 100.0))
  }

  /** The pet-hair charge: per square foot, a flat fee, or nothing for any
      other option. */
  function PetHairCost(petHairOption: string, sqft: real): real {
    if petHairOption == "perSqft" then sqft * 0.03
    else if petHairOption == "flat" then 50.0
    else 0.0
  }

  // ----- The charges, one per constant of the calculation -----

  function FloorCost(q: QuoteData): Num { Scaled(q.sqft, FloorRates, q.flooringType) }
  function BathroomCost(q: QuoteData): Num { Scaled(q.bathroomCount, BathroomRates, q.bathroomType) }
  function BuildingAgeCost(q: QuoteData): Num { Scaled(q.sqft, BuildingAgeAdders, q.buildingAge) }
  function DifficultyCost(q: QuoteData): Num { Scaled(q.sqft, DifficultyAdders, q.difficulty) }
  function FootTrafficCost(q: QuoteData): Num { Scaled(q.sqft, FootTrafficAdders, q.footTraffic) }
  function HighAreasCost(q: QuoteData): real { q.highAreasSqft * 0.06 }
  function FurnitureCost(q: QuoteData): real { q.furnitureAffectedSqft * 0.04 }
  function OvensCost(q: QuoteData): real { q.appliances.ovens * 40.0 }
  function StovesCost(q: QuoteData): real { q.appliances.stoves * 25.0 }
  function FryersCost(q: QuoteData): real { q.appliances.fryers * 50.0 }
  function WalkInFridgesCost(q: QuoteData): real { q.appliances.walkInFridges * 80.0 }
  function TvsCost(q: QuoteData): real { q.appliances.tvs * 5.0 }
  function LightFixtureCost(q: QuoteData): real { q.lightFixtures * 2.0 }
  function TrashCost(q: QuoteData): real { q.trashBags * 15.0 }
  function SoapCost(q: QuoteData): real { q.soapDispensers * 3.0 }
  function AirFreshenerInstallCost(q: QuoteData): real { q.airFreshenerInstall * 30.0 }
  function AirFreshenerMaintenanceCost(q: QuoteData): real { q.airFreshenerMaintenance * 15.0 }

  /** `appliancesTotalCost`: the five appliance charges added up. */
  function AppliancesTotalCost(q: QuoteData): real {
    OvensCost(q) + StovesCost(q) + FryersCost(q) + WalkInFridgesCost(q) + TvsCost(q)
  }

  /** `totalCost`: the fourteen terms added left to right, the appliances as
      one subtotal. Only the first five can be NaN. */
  function TotalCost(q: QuoteData): Num {
    Add(Add(Add(Add(Add(Add(Add(Add(Add(Add(Add(Add(Add(
      FloorCost(q),
      BathroomCost(q)),
      BuildingAgeCost(q)),
      DifficultyCost(q)),
      FootTrafficCost(q)),
      Finite(HighAreasCost(q))),
      Finite(PetHairCost(q.petHairOption, q.sqft))),
      Finite(FurnitureCost(q))),
      Finite(AppliancesTotalCost(q))),
      Finite(LightFixtureCost(q))),
      Finite(TrashCost(q))),
      Finite(SoapCost(q))),
      Finite(AirFreshenerInstallCost(q))),
      Finite(AirFreshenerMaintenanceCost(q)))
  }

  // ----- Result -----

  /** The rows of the breakdown, in the order the breakdown object declares
      them. */
  datatype Row =
    | FloorCleaning | Bathrooms | BuildingAgeRow | DifficultyRow | FootTrafficRow
    | HighReachAreas | PetHairRemoval | FurnitureMoving
    | OvensRow | StovesRow | FryersRow | WalkInFridgesRow | TvsRow
    | LightFixtures | TrashRemoval | SoapDispensers
    | AirFreshenerInstall | AirFreshenerMaintenance

  /** The key under which a row appears in the breakdown object. */
  function Label(row: Row): string {
    match row
    case FloorCleaning => "Floor Cleaning"
    case Bathrooms => "Bathrooms"
    case BuildingAgeRow => "Building Age"
    case DifficultyRow => "Difficulty"
    case FootTrafficRow => "Foot Traffic"
    case HighReachAreas => "High-reach Areas"
    case PetHairRemoval => "Pet Hair Removal"
    case FurnitureMoving => "Furniture Moving"
    case OvensRow => "Ovens"
    case StovesRow => "Stoves"
    case FryersRow => "Fryers"
    case WalkInFridgesRow => "Walk-in Fridges"
    case TvsRow => "TVs"
    case LightFixtures => "Light Fixtures"
    case TrashRemoval => "Trash Removal"
    case SoapDispensers => "Soap Dispensers"
    case AirFreshenerInstall => "Air Freshener Install"
    case AirFreshenerMaintenance => "Air Freshener Maintenance"
  }

  datatype LineItem = LineItem(row: Row, amount: Num)

  datatype Costs = Costs(
    breakdown: seq<LineItem>,
    totalCost: Num,
    margin: Num,
    finalQuote: Num)

  /** The `breakdown` object: every row with its charge, in declaration order. */
  function Breakdown(q: QuoteData): seq<LineItem> {
    [ LineItem(FloorCleaning, FloorCost(q)),
      LineItem(Bathrooms, BathroomCost(q)),
      LineItem(BuildingAgeRow, BuildingAgeCost(q)),
      LineItem(DifficultyRow, DifficultyCost(q)),
      LineItem(FootTrafficRow, FootTrafficCost(q)),
      LineItem(HighReachAreas, Finite(HighAreasCost(q))),
      LineItem(PetHairRemoval, Finite(PetHairCost(q.petHairOption, q.sqft))),
      LineItem(FurnitureMoving, Finite(FurnitureCost(q))),
      LineItem(OvensRow, Finite(OvensCost(q))),
      LineItem(StovesRow, Finite(StovesCost(q))),
      LineItem(FryersRow, Finite(FryersCost(q))),
      LineItem(WalkInFridgesRow, Finite(WalkInFridgesCost(q))),
      LineItem(TvsRow, Finite(TvsCost(q))),
      LineItem(LightFixtures, Finite(LightFixtureCost(q))),
      LineItem(TrashRemoval, Finite(TrashCost(q))),
      LineItem(SoapDispensers, Finite(SoapCost(q))),
      LineItem(AirFreshenerInstall, Finite(AirFreshenerInstallCost(q))),
      LineItem(AirFreshenerMaintenance, Finite(AirFreshenerMaintenanceCost(q))) ]
  }

  /** `calculateCosts`: the breakdown, the total, the margin on the total and
      the final quote. */
  function CalculateCosts(q: QuoteData): Costs {
    var totalCost := TotalCost(q);
    var margin := Margin(totalCost, q.marginPercent);
    Costs(Breakdown(q), totalCost, margin, Add(totalCost, margin))
  }

  /** The rows of the "Cost Breakdown" card: the entries whose value is
      greater than zero, in breakdown order. */
  function Displayed(items: seq<LineItem>): seq<LineItem> {
    if items == [] then []
    else (if Positive(items[0].amount) then [items[0]] else []) + Displayed(items[1..])
  }

  // ----- Specification helpers -----

  /** The sum of a sequence of amounts, NaN as soon as one of them is. */
  function Sum(items: seq<LineItem>): Num {
    if items == [] then Finite(0.0) else Add(items[0].amount, Sum(items[1..]))
  }

  /** No amount is NaN. */
  predicate AllFinite(items: seq<LineItem>) {
    forall i :: 0 <= i < |items| ==> items[i].amount.Finite?
  }

  /** Every amount is a number at least zero. */
  predicate AllNonNegative(items: seq<LineItem>) {
    forall i :: 0 <= i < |items| ==> items[i].amount.Finite? && items[i].amount.value >= 0.0
  }

  /** Every option field that selects a rate holds a key of its table. */
  predicate KnownKeys(q: QuoteData) {
    && q.flooringType in FloorRates
    && q.bathroomType in BathroomRates
    && q.buildingAge in BuildingAgeAdders
    && q.difficulty in DifficultyAdders
    && q.footTraffic in FootTrafficAdders
  }

  predicate NonNegativeRates(table: map<string, real>) {
    forall k :: k in table ==> table[k] >= 0.0
  }
}

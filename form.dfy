/** The quote form (src/components/QuoteForm.tsx): the two record-update
    helpers its inputs call, and the options its selects and radios offer
    together with the prices their captions advertise. */
module Form {
  import opened Quotes

  // ----- Record updates -----

  /** The keys of `QuoteData`, in declaration order. */
  datatype Field =
    | QuoterName | Sqft | BathroomType | BathroomCount | Difficulty | FootTraffic
    | FurnitureAffectedSqft | Appliances | LightFixtures | TrashBags | SoapDispensers
    | FlooringType | HighAreasSqft | BuildingAge | PetHairOption
    | AirFreshenerInstall | AirFreshenerMaintenance | MarginPercent | ServiceFrequency

  /** A value stored under a key: a string, a number or the appliance
      sub-record. */
  datatype Value = Text(text: string) | Number(number: real) | Counts(counts: ApplianceCounts)

  /** `q[f]`. */
  function Get(q: QuoteData, f: Field): Value {
    match f
    case QuoterName => Text(q.quoterName)
    case Sqft => Number(q.sqft)
    case BathroomType => Text(q.bathroomType)
    case BathroomCount => Number(q.bathroomCount)
    case Difficulty => Text(q.difficulty)
    case FootTraffic => Text(q.footTraffic)
    case FurnitureAffectedSqft => Number(q.furnitureAffectedSqft)
    case Appliances => Counts(q.appliances)
    case LightFixtures => Number(q.lightFixtures)
    case TrashBags => Number(q.trashBags)
    case SoapDispensers => Number(q.soapDispensers)
    case FlooringType => Text(q.flooringType)
    case HighAreasSqft => Number(q.highAreasSqft)
    case BuildingAge => Text(q.buildingAge)
    case PetHairOption => Text(q.petHairOption)
    case AirFreshenerInstall => Number(q.airFreshenerInstall)
    case AirFreshenerMaintenance => Number(q.airFreshenerMaintenance)
    case MarginPercent => Number(q.marginPercent)
    case ServiceFrequency => Text(q.serviceFrequency)
  }

  /** The value has the type `QuoteData` declares for the field. */
  predicate Fits(f: Field, v: Value) {
    match f
    case QuoterName | BathroomType | Difficulty | FootTraffic | FlooringType
       | BuildingAge | PetHairOption | ServiceFrequency => v.Text?
    case Appliances => v.Counts?
    case _ => v.Number?
  }

  /** `updateField(field, value)`: the record with one field replaced. */
  function UpdateField(q: QuoteData, f: Field, v: Value): (r: QuoteData)
    requires Fits(f, v)
    ensures Get(r, f) == v
    ensures forall g :: g != f ==> Get(r, g) == Get(q, g)
  {
    match f
    case QuoterName => q.(quoterName := v.text)
    case Sqft => q.(sqft := v.number)
    case BathroomType => q.(bathroomType := v.text)
    case BathroomCount => q.(bathroomCount := v.number)
    case Difficulty => q.(difficulty := v.text)
    case FootTraffic => q.(footTraffic := v.text)
    case FurnitureAffectedSqft => q.(furnitureAffectedSqft := v.number)
    case Appliances => q.(appliances := v.counts)
    case LightFixtures => q.(lightFixtures := v.number)
    case TrashBags => q.(trashBags := v.number)
    case SoapDispensers => q.(soapDispensers := v.number)
    case FlooringType => q.(flooringType := v.text)
    case HighAreasSqft => q.(highAreasSqft := v.number)
    case BuildingAge => q.(buildingAge := v.text)
    case PetHairOption => q.(petHairOption := v.text)
    case AirFreshenerInstall => q.(airFreshenerInstall := v.number)
    case AirFreshenerMaintenance => q.(airFreshenerMaintenance := v.number)
    case MarginPercent => q.(marginPercent := v.number)
    case ServiceFrequency => q.(serviceFrequency := v.text)
  }

  /** `appliances` with one count replaced. */
  function SetCount(a: ApplianceCounts, kind: Appliance, v: real): (r: ApplianceCounts)
    ensures Count(r, kind) == v
    ensures forall other :: other != kind ==> Count(r, other) == Count(a, other)
  {
    match kind
    case Ovens => a.(ovens := v)
    case Stoves => a.(stoves := v)
    case Fryers => a.(fryers := v)
    case WalkInFridges => a.(walkInFridges := v)
    case Tvs => a.(tvs := v)
  }

  /** `updateAppliance(appliance, value)`: the record with one appliance
      count replaced. */
  function UpdateAppliance(q: QuoteData, kind: Appliance, v: real): (r: QuoteData)
    ensures Count(r.appliances, kind) == v
    ensures forall other :: other != kind ==> Count(r.appliances, other) == Count(q.appliances, other)
    ensures forall g :: g != Appliances ==> Get(r, g) == Get(q, g)
  {
    q.(appliances := SetCount(q.appliances, kind, v))
  }

  // ----- Options offered by the form -----

  /** A select option: the value it stores and the price its caption
      advertises ("no charge" is 0). */
  datatype SelectItem = SelectItem(value: string, advertised: real)

  /** Flooring Type. */
  const FlooringOptions: seq<SelectItem> := [
    SelectItem("tile", 0.10),
    SelectItem("rubber", 0.16),
    SelectItem("carpet", 0.12),
    SelectItem("hardwood", 0.10),
    SelectItem("mixed", 0.15),
    SelectItem("concrete", 0.10),
    SelectItem("specialty", 0.20)]

  /** Bathroom Type, per bathroom. */
  const BathroomOptions: seq<SelectItem> := [
    SelectItem("standard", 45.0),
    SelectItem("commercial", 70.0),
    SelectItem("locker", 100.0)]

  /** Building Age, extra per square foot. */
  const BuildingAgeOptions: seq<SelectItem> := [
    SelectItem("0-5", 0.0),
    SelectItem("5-15", 0.01),
    SelectItem("15+", 0.03)]

  /** Difficulty Level, extra per square foot. */
  const DifficultyOptions: seq<SelectItem> := [
    SelectItem("easy", 0.0),
    SelectItem("difficult", 0.03),
    SelectItem("extreme", 0.07)]

  /** Daily Foot Traffic, extra per square foot. */
  const FootTrafficOptions: seq<SelectItem> := [
    SelectItem("low", 0.0),
    SelectItem("medium", 0.01),
    SelectItem("high", 0.03)]

  /** What a pet-hair caption promises. */
  datatype PetHairCharge = NoCharge | PerSqft(rate: real) | FlatRate(amount: real)

  /** A pet-hair radio button: the value it stores and its caption's price. */
  datatype RadioItem = RadioItem(value: string, advertised: PetHairCharge)

  /** Pet Hair Removal. */
  const PetHairOptions: seq<RadioItem> := [
    RadioItem("none", NoCharge),
    RadioItem("perSqft", PerSqft(0.03)),
    RadioItem("flat", FlatRate(50.0))]

  /** The amount a pet-hair caption promises for a given floor area. */
  function Promised(c: PetHairCharge, sqft: real): real {
    match c
    case NoCharge => 0.0
    case PerSqft(rate) => sqft * rate
    case FlatRate(amount) => amount
  }

  /** No value is offered twice. */
  predicate DistinctValues(options: seq<SelectItem>) {
    forall i, j :: 0 <= i < j < |options| ==> options[i].value != options[j].value
  }

  /** Every offered value is a key of the table, at the advertised rate. */
  predicate PricedAsAdvertised(options: seq<SelectItem>, table: map<string, real>) {
    forall i :: 0 <= i < |options| ==>
      options[i].value in table && table[options[i].value] == options[i].advertised
  }

  /** Every key of the table is offered. */
  predicate CoversKeys(options: seq<SelectItem>, table: map<string, real>) {
    forall k :: k in table ==> exists i :: 0 <= i < |options| && options[i].value == k
  }

  /** The options offer exactly the table's keys, once each, and each
      caption advertises the table's rate. */
  predicate Advertises(options: seq<SelectItem>, table: map<string, real>) {
    DistinctValues(options) && PricedAsAdvertised(options, table) && CoversKeys(options, table)
  }
}

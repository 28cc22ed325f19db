/** The form record that the quote calculator prices (`QuoteData` in
    src/pages/Index.tsx). Numeric fields are JavaScript numbers, so they are
    `real`s and nothing forces them to be whole or non-negative; the option
    fields are free strings, since the record's type does not restrict them
    to the keys of the rate tables. */
module Quotes {

  /** The nested `appliances` record: how many of each appliance to clean. */
  datatype ApplianceCounts = ApplianceCounts(
    ovens: real,
    stoves: real,
    fryers: real,
    walkInFridges: real,
    tvs: real)

  /** The keys of the `appliances` record. */
  datatype Appliance = Ovens | Stoves | Fryers | WalkInFridges | Tvs

  /** `appliances[kind]`. */
  function Count(a: ApplianceCounts, kind: Appliance): real {
    match kind
    case Ovens => a.ovens
    case Stoves => a.stoves
    case Fryers => a.fryers
    case WalkInFridges => a.walkInFridges
    case Tvs => a.tvs
  }

  datatype QuoteData = QuoteData(
    quoterName: string,
    sqft: real,
    bathroomType: string,
    bathroomCount: real,
    difficulty: string,
    footTraffic: string,
    furnitureAffectedSqft: real,
    appliances: ApplianceCounts,
    lightFixtures: real,
    trashBags: real,
    soapDispensers: real,
    flooringType: string,
    highAreasSqft: real,
    buildingAge: string,
    petHairOption: string,       // "none", "perSqft" or "flat"
    airFreshenerInstall: real,
    airFreshenerMaintenance: real,
    marginPercent: real,
    serviceFrequency: string)    // "one-time", "monthly", "biweekly", "weekly" or "daily"

  /** The record the page starts from, before anything is entered. */
  const InitialQuote: QuoteData := QuoteData(
    quoterName := "",
    sqft := 0.0,
    bathroomType := "standard",
    bathroomCount := 0.0,
    difficulty := "easy",
    footTraffic := "low",
    furnitureAffectedSqft := 0.0,
    appliances := ApplianceCounts(0.0, 0.0, 0.0, 0.0, 0.0),
    lightFixtures := 0.0,
    trashBags := 0.0,
    soapDispensers := 0.0,
    flooringType := "tile",
    highAreasSqft := 0.0,
    buildingAge := "0-5",
    petHairOption := "none",
    airFreshenerInstall := 0.0,
    airFreshenerMaintenance := 0.0,
    marginPercent := 35.0,
    serviceFrequency := "one-time")

  /** Every quantity the calculation multiplies by a rate is at least zero. */
  predicate NonNegativeQuantities(q: QuoteData) {
    && q.sqft >= 0.0
    && q.bathroomCount >= 0.0
    && q.furnitureAffectedSqft >= 0.0
    && q.appliances.ovens >= 0.0
    && q.appliances.stoves >= 0.0
    && q.appliances.fryers >= 0.0
    && q.appliances.walkInFridges >= 0.0
    && q.appliances.tvs >= 0.0
    && q.lightFixtures >= 0.0
    && q.trashBags >= 0.0
    && q.soapDispensers >= 0.0
    && q.highAreasSqft >= 0.0
    && q.airFreshenerInstall >= 0.0
    && q.airFreshenerMaintenance >= 0.0
  }
}

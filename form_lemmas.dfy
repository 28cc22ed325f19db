/** What the form's updates and options guarantee: each update replaces one
    field and nothing else, updates behave as writes to a record, the
    calculation ignores the fields it does not price, and every option the
    form offers is a key of its rate table at the advertised rate. */
module FormLemmas {
  import opened Quotes
  import opened Form
  import Pricing

  // ----- Writes -----

  /** Every field's current value has that field's type. */
  lemma GetFits(q: QuoteData, f: Field)
    ensures Fits(f, Get(q, f))
  {
  }

  /** Two records that agree on every field are the same record. */
  lemma Extensionality(a: QuoteData, b: QuoteData)
    requires forall g :: Get(a, g) == Get(b, g)
    ensures a == b
  {
    AgreeOnFirstFields(a, b);
    AgreeOnLastFields(a, b);
  }

  /** Agreement on `Get` is agreement on the first ten fields. */
  lemma AgreeOnFirstFields(a: QuoteData, b: QuoteData)
    requires forall g :: Get(a, g) == Get(b, g)
    ensures a.quoterName == b.quoterName
    ensures a.sqft == b.sqft
    ensures a.bathroomType == b.bathroomType
    ensures a.bathroomCount == b.bathroomCount
    ensures a.difficulty == b.difficulty
    ensures a.footTraffic == b.footTraffic
    ensures a.furnitureAffectedSqft == b.furnitureAffectedSqft
    ensures a.appliances == b.appliances
    ensures a.lightFixtures == b.lightFixtures
    ensures a.trashBags == b.trashBags
  {
    assert Get(a, QuoterName) == Get(b, QuoterName);
    assert Get(a, Sqft) == Get(b, Sqft);
    assert Get(a, BathroomType) == Get(b, BathroomType);
    assert Get(a, BathroomCount) == Get(b, BathroomCount);
    assert Get(a, Difficulty) == Get(b, Difficulty);
    assert Get(a, FootTraffic) == Get(b, FootTraffic);
    assert Get(a, FurnitureAffectedSqft) == Get(b, FurnitureAffectedSqft);
    assert Get(a, Appliances) == Get(b, Appliances);
    assert Get(a, LightFixtures) == Get(b, LightFixtures);
    assert Get(a, TrashBags) == Get(b, TrashBags);
  }

  /** Agreement on `Get` is agreement on the last nine fields. */
  lemma AgreeOnLastFields(a: QuoteData, b: QuoteData)
    requires forall g :: Get(a, g) == Get(b, g)
    ensures a.soapDispensers == b.soapDispensers
    ensures a.flooringType == b.flooringType
    ensures a.highAreasSqft == b.highAreasSqft
    ensures a.buildingAge == b.buildingAge
    ensures a.petHairOption == b.petHairOption
    ensures a.airFreshenerInstall == b.airFreshenerInstall
    ensures a.airFreshenerMaintenance == b.airFreshenerMaintenance
    ensures a.marginPercent == b.marginPercent
    ensures a.serviceFrequency == b.serviceFrequency
  {
    assert Get(a, SoapDispensers) == Get(b, SoapDispensers);
    assert Get(a, FlooringType) == Get(b, FlooringType);
    assert Get(a, HighAreasSqft) == Get(b, HighAreasSqft);
    assert Get(a, BuildingAge) == Get(b, BuildingAge);
    assert Get(a, PetHairOption) == Get(b, PetHairOption);
    assert Get(a, AirFreshenerInstall) == Get(b, AirFreshenerInstall);
    assert Get(a, AirFreshenerMaintenance) == Get(b, AirFreshenerMaintenance);
    assert Get(a, MarginPercent) == Get(b, MarginPercent);
    assert Get(a, ServiceFrequency) == Get(b, ServiceFrequency);
  }

  /** Of two writes to the same field, the last one wins. */
  lemma LastWriteWins(q: QuoteData, f: Field, v: Value, w: Value)
    requires Fits(f, v) && Fits(f, w)
    ensures UpdateField(UpdateField(q, f, v), f, w) == UpdateField(q, f, w)
  {
    Extensionality(UpdateField(UpdateField(q, f, v), f, w), UpdateField(q, f, w));
  }

  /** Writing a field's current value leaves the record as it was. */
  lemma WriteCurrentValueIsNoOp(q: QuoteData, f: Field)
    ensures Fits(f, Get(q, f)) && UpdateField(q, f, Get(q, f)) == q
  {
    GetFits(q, f);
    Extensionality(UpdateField(q, f, Get(q, f)), q);
  }

  /** Writes to different fields commute. */
  lemma DistinctUpdatesCommute(q: QuoteData, f: Field, g: Field, v: Value, w: Value)
    requires f != g && Fits(f, v) && Fits(g, w)
    ensures UpdateField(UpdateField(q, f, v), g, w) == UpdateField(UpdateField(q, g, w), f, v)
  {
    Extensionality(UpdateField(UpdateField(q, f, v), g, w), UpdateField(UpdateField(q, g, w), f, v));
  }

  /** Two appliance records that agree on every count are the same. */
  lemma CountsExtensionality(a: ApplianceCounts, b: ApplianceCounts)
    requires forall kind :: Count(a, kind) == Count(b, kind)
    ensures a == b
  {
    assert Count(a, Ovens) == Count(b, Ovens);
    assert Count(a, Stoves) == Count(b, Stoves);
    assert Count(a, Fryers) == Count(b, Fryers);
    assert Count(a, WalkInFridges) == Count(b, WalkInFridges);
    assert Count(a, Tvs) == Count(b, Tvs);
  }

  /** An appliance update is a write of the whole `appliances` field. */
  lemma ApplianceUpdateIsFieldWrite(q: QuoteData, kind: Appliance, v: real)
    ensures UpdateAppliance(q, kind, v) ==
      UpdateField(q, Appliances, Counts(SetCount(q.appliances, kind, v)))
  {
    Extensionality(UpdateAppliance(q, kind, v),
      UpdateField(q, Appliances, Counts(SetCount(q.appliances, kind, v))));
  }

  /** Of two appliance updates to the same count, the last one wins;
      updates to different counts commute; rewriting a count is a no-op. */
  lemma ApplianceWrites(q: QuoteData, kind: Appliance, other: Appliance, v: real, w: real)
    ensures UpdateAppliance(UpdateAppliance(q, kind, v), kind, w) == UpdateAppliance(q, kind, w)
    ensures kind != other ==>
      UpdateAppliance(UpdateAppliance(q, kind, v), other, w) ==
      UpdateAppliance(UpdateAppliance(q, other, w), kind, v)
    ensures UpdateAppliance(q, kind, Count(q.appliances, kind)) == q
  {
    CountsExtensionality(UpdateAppliance(UpdateAppliance(q, kind, v), kind, w).appliances,
      UpdateAppliance(q, kind, w).appliances);
    if kind != other {
      CountsExtensionality(UpdateAppliance(UpdateAppliance(q, kind, v), other, w).appliances,
        UpdateAppliance(UpdateAppliance(q, other, w), kind, v).appliances);
    }
    CountsExtensionality(UpdateAppliance(q, kind, Count(q.appliances, kind)).appliances, q.appliances);
  }

  // ----- Fields the calculation ignores -----

  /** Changing the quoter's name or the service frequency leaves the whole
      calculation unchanged: no frequency discount is applied. */
  lemma UnpricedFieldsIgnored(q: QuoteData, f: Field, v: Value)
    requires f == QuoterName || f == ServiceFrequency
    requires Fits(f, v)
    ensures Pricing.CalculateCosts(UpdateField(q, f, v)) == Pricing.CalculateCosts(q)
  {
    var r := UpdateField(q, f, v);
    assert r == q.(quoterName := r.quoterName, serviceFrequency := r.serviceFrequency);
    SameBreakdown(q, r);
    SameTotal(q, r);
  }

  /** Moving the margin slider changes neither the breakdown nor the total,
      only the margin taken on it and so the final quote. */
  lemma MarginSliderKeepsTotal(q: QuoteData, marginPercent: real)
    ensures var r := UpdateField(q, MarginPercent, Number(marginPercent));
      && Pricing.CalculateCosts(r).breakdown == Pricing.CalculateCosts(q).breakdown
      && Pricing.CalculateCosts(r).totalCost == Pricing.CalculateCosts(q).totalCost
      && Pricing.CalculateCosts(r).margin == Pricing.Margin(Pricing.CalculateCosts(q).totalCost, marginPercent)
  {
    var r := UpdateField(q, MarginPercent, Number(marginPercent));
    SameBreakdown(q, r);
    SameTotal(q, r);
  }

  /** Records that differ at most in the name, the service frequency and the
      margin have the same breakdown. */
  lemma SameBreakdown(q: QuoteData, r: QuoteData)
    requires r == q.(quoterName := r.quoterName, serviceFrequency := r.serviceFrequency,
      marginPercent := r.marginPercent)
    ensures Pricing.Breakdown(r) == Pricing.Breakdown(q)
  {
  }

  /** Records that differ at most in the name, the service frequency and the
      margin have the same total. */
  lemma SameTotal(q: QuoteData, r: QuoteData)
    requires r == q.(quoterName := r.quoterName, serviceFrequency := r.serviceFrequency,
      marginPercent := r.marginPercent)
    ensures Pricing.TotalCost(r) == Pricing.TotalCost(q)
  {
  }

  // ----- Options against the rate tables -----

  /** The flooring select offers exactly the flooring table's keys, once
      each, at the rate the table charges. */
  lemma FlooringOptionsMatch()
    ensures Advertises(FlooringOptions, Pricing.FloorRates)
  {
    FlooringValuesDistinct();
    FlooringPriced();
    FlooringCovered();
  }

  lemma FlooringValuesDistinct()
    ensures DistinctValues(FlooringOptions)
  {
  }

  lemma FlooringPriced()
    ensures PricedAsAdvertised(FlooringOptions, Pricing.FloorRates)
  {
  }

  lemma FlooringCovered()
    ensures CoversKeys(FlooringOptions, Pricing.FloorRates)
  {
    var o := FlooringOptions;
    forall k | k in Pricing.FloorRates ensures exists i :: 0 <= i < |o| && o[i].value == k {
      var i := if k == "tile" then 0 else if k == "rubber" then 1 else if k == "carpet" then 2
        else if k == "hardwood" then 3 else if k == "mixed" then 4 else if k == "concrete" then 5
        else 6;
      assert o[i].value == k;
    }
  }

  /** The bathroom select offers exactly the bathroom table's keys at its
      rates. */
  lemma BathroomOptionsMatch()
    ensures Advertises(BathroomOptions, Pricing.BathroomRates)
  {
    var o := BathroomOptions;
    forall k | k in Pricing.BathroomRates ensures exists i :: 0 <= i < |o| && o[i].value == k {
      var i := if k == "standard" then 0 else if k == "commercial" then 1 else 2;
      assert o[i].value == k;
    }
  }

  /** The building-age select offers exactly the building-age table's keys at
      its rates. */
  lemma BuildingAgeOptionsMatch()
    ensures Advertises(BuildingAgeOptions, Pricing.BuildingAgeAdders)
  {
    var o := BuildingAgeOptions;
    forall k | k in Pricing.BuildingAgeAdders ensures exists i :: 0 <= i < |o| && o[i].value == k {
      var i := if k == "0-5" then 0 else if k == "5-15" then 1 else 2;
      assert o[i].value == k;
    }
  }

  /** The difficulty select offers exactly the difficulty table's keys at its
      rates. */
  lemma DifficultyOptionsMatch()
    ensures Advertises(DifficultyOptions, Pricing.DifficultyAdders)
  {
    var o := DifficultyOptions;
    forall k | k in Pricing.DifficultyAdders ensures exists i :: 0 <= i < |o| && o[i].value == k {
      var i := if k == "easy" then 0 else if k == "difficult" then 1 else 2;
      assert o[i].value == k;
    }
  }

  /** The foot-traffic select offers exactly the foot-traffic table's keys at
      its rates. */
  lemma FootTrafficOptionsMatch()
    ensures Advertises(FootTrafficOptions, Pricing.FootTrafficAdders)
  {
    var o := FootTrafficOptions;
    forall k | k in Pricing.FootTrafficAdders ensures exists i :: 0 <= i < |o| && o[i].value == k {
      var i := if k == "low" then 0 else if k == "medium" then 1 else 2;
      assert o[i].value == k;
    }
  }

  /** The pet-hair radios offer three distinct values, each charged as its
      caption promises, and any value they do not offer is charged
      nothing. */
  lemma PetHairOptionsMatch(sqft: real)
    ensures forall i, j :: 0 <= i < j < |PetHairOptions| ==>
      PetHairOptions[i].value != PetHairOptions[j].value
    ensures forall i :: 0 <= i < |PetHairOptions| ==>
      Pricing.PetHairCost(PetHairOptions[i].value, sqft) == Promised(PetHairOptions[i].advertised, sqft)
    ensures forall s :: (forall i :: 0 <= i < |PetHairOptions| ==> PetHairOptions[i].value != s) ==>
      Pricing.PetHairCost(s, sqft) == 0.0
  {
    var o := PetHairOptions;
    assert o[0].value == "none" && o[1].value == "perSqft" && o[2].value == "flat";
    forall s | forall i :: 0 <= i < |o| ==> o[i].value != s
      ensures Pricing.PetHairCost(s, sqft) == 0.0
    {
      assert o[1].value != s && o[2].value != s;
    }
  }

  /** Choosing any offered option keeps every lookup defined, so the form's
      selects alone can never make the quote NaN. */
  lemma OfferedOptionKeepsKeysKnown(q: QuoteData, f: Field, item: SelectItem)
    requires Pricing.KnownKeys(q)
    requires || (f == FlooringType && item in FlooringOptions)
             || (f == BathroomType && item in BathroomOptions)
             || (f == BuildingAge && item in BuildingAgeOptions)
             || (f == Difficulty && item in DifficultyOptions)
             || (f == FootTraffic && item in FootTrafficOptions)
    ensures Pricing.KnownKeys(UpdateField(q, f, Text(item.value)))
  {
    FlooringOptionsMatch();
    BathroomOptionsMatch();
    BuildingAgeOptionsMatch();
    DifficultyOptionsMatch();
    FootTrafficOptionsMatch();
  }
}

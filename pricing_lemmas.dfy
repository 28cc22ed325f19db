/** What the quote calculation guarantees: the totals add up, the margin is a
    percentage of the total, each rate table is consulted exactly when its key
    is known, charges are never negative for non-negative input, and a larger
    floor area never costs less. */
module PricingLemmas {
  import opened JsNumber
  import opened Quotes
  import opened Pricing

  // ----- Shape of the breakdown -----

  /** The breakdown has 18 entries and no row twice, and no two rows share
      a label, so listing the breakdown object's entries yields every charge
      exactly once. */
  lemma BreakdownRowsDistinct(q: QuoteData)
    ensures |CalculateCosts(q).breakdown| == 18
    ensures forall i, j :: 0 <= i < j < 18 ==>
      CalculateCosts(q).breakdown[i].row != CalculateCosts(q).breakdown[j].row
  {
  }

  /** Different rows carry different labels. */
  lemma LabelsDistinct(r1: Row, r2: Row)
    requires r1 != r2
    ensures Label(r1) != Label(r2)
  {
  }

  /** Only the five rows priced from a rate table can be NaN. */
  lemma OnlyTableRowsCanBeNaN(q: QuoteData)
    ensures forall i :: 5 <= i < |CalculateCosts(q).breakdown| ==>
      CalculateCosts(q).breakdown[i].amount.Finite?
  {
  }

  // ----- Sum identity -----

  /** Summing a concatenation is adding the sums of the parts, NaN included. */
  lemma {:induction false} SumConcat(x: seq<LineItem>, y: seq<LineItem>)
    ensures Sum(x + y) == Add(Sum(x), Sum(y))
  {
    if x == [] {
      assert x + y == y;
    } else {
      assert (x + y)[1..] == x[1..] + y;
      SumConcat(x[1..], y);
    }
  }

  /** Extending a prefix by one row adds that row's amount on the right, as
      a left-to-right JavaScript sum does. */
  lemma SumExtend(b: seq<LineItem>, i: nat, k: nat)
    requires i <= k < |b|
    ensures Sum(b[i..k + 1]) == Add(Sum(b[i..k]), b[k].amount)
  {
    assert b[i..k + 1] == b[i..k] + [b[k]];
    SumConcat(b[i..k], [b[k]]);
  }

  /** The right-to-left sum of 18 amounts equals the left-to-right sum the
      calculation performs, with rows 8 to 12 added up as a subtotal first. */
  lemma SumOfEighteen(b: seq<LineItem>)
    requires |b| == 18
    ensures Sum(b[8..13]) ==
      Add(Add(Add(Add(b[8].amount, b[9].amount), b[10].amount), b[11].amount), b[12].amount)
    ensures Sum(b) ==
      Add(Add(Add(Add(Add(Add(Add(Add(Add(Add(Add(Add(Add(
        b[0].amount, b[1].amount), b[2].amount), b[3].amount), b[4].amount),
        b[5].amount), b[6].amount), b[7].amount),
        Sum(b[8..13])),
        b[13].amount), b[14].amount), b[15].amount), b[16].amount), b[17].amount)
  {
    forall k | 0 <= k < 18 ensures Sum(b[0..k + 1]) == Add(Sum(b[0..k]), b[k].amount) {
      SumExtend(b, 0, k);
    }
    forall k | 8 <= k < 13 ensures Sum(b[8..k + 1]) == Add(Sum(b[8..k]), b[k].amount) {
      SumExtend(b, 8, k);
    }
    assert b[0..0] == b[8..8] == [];
    assert b[0..8] + b[8..13] == b[0..13];
    SumConcat(b[0..8], b[8..13]);
    assert b[0..18] == b;
  }

  /** `totalCost` is the sum of all 18 breakdown rows, and
      `appliancesTotalCost` is the sum of the five appliance rows. */
  lemma SumIdentity(q: QuoteData)
    ensures Sum(CalculateCosts(q).breakdown) == CalculateCosts(q).totalCost
    ensures Sum(CalculateCosts(q).breakdown[8..13]) == Finite(AppliancesTotalCost(q))
  {
    var b := Breakdown(q);
    SumOfEighteen(b);
    ApplianceRows(q);
    assert b[0].amount == FloorCost(q) && b[1].amount == BathroomCost(q);
    assert b[2].amount == BuildingAgeCost(q) && b[3].amount == DifficultyCost(q);
    assert b[4].amount == FootTrafficCost(q);
  }

  /** Rows 8 to 12 of the breakdown are the five appliance charges. */
  lemma ApplianceRows(q: QuoteData)
    ensures Add(Add(Add(Add(Breakdown(q)[8].amount, Breakdown(q)[9].amount),
      Breakdown(q)[10].amount), Breakdown(q)[11].amount), Breakdown(q)[12].amount)
      == Finite(AppliancesTotalCost(q))
  {
    var b := Breakdown(q);
    assert b[8].amount == Finite(OvensCost(q));
    assert b[9].amount == Finite(StovesCost(q));
    assert b[10].amount == Finite(FryersCost(q));
    assert b[11].amount == Finite(WalkInFridgesCost(q));
    assert b[12].amount == Finite(TvsCost(q));
  }

  // ----- Margin identity -----

  /** On any total: the margin is `marginPercent` percent of it and the final
      quote is the total scaled by `1 + marginPercent / 100`; a NaN total
      makes both NaN. */
  lemma MarginOf(totalCost: Num, marginPercent: real)
    ensures totalCost.Finite? ==>
      var t := totalCost.value;
      && Margin(totalCost, marginPercent) == Finite(t * marginPercent / 100.0)
      && Add(totalCost, Margin(totalCost, marginPercent)) == Finite(t * (1.0 + marginPercent / 100.0))
    ensures totalCost.NaN? ==>
      Margin(totalCost, marginPercent).NaN? && Add(totalCost, Margin(totalCost, marginPercent)).NaN?
  {
    if totalCost.Finite? {
      var t := totalCost.value;
      assert t * (marginPercent / 100.0) == t * marginPercent / 100.0;
      assert t + t * (marginPercent / 100.0) == t * (1.0 + marginPercent / 100.0);
    }
  }

  /** The margin of a quote is `marginPercent` percent of its total, and the
      final quote is the total plus the margin. */
  lemma MarginIdentity(q: QuoteData)
    ensures CalculateCosts(q).totalCost.Finite? ==>
      var t := CalculateCosts(q).totalCost.value;
      && CalculateCosts(q).margin == Finite(t * q.marginPercent / 100.0)
      && CalculateCosts(q).finalQuote == Finite(t + CalculateCosts(q).margin.value)
      && CalculateCosts(q).finalQuote == Finite(t * (1.0 + q.marginPercent / 100.0))
    ensures CalculateCosts(q).totalCost.NaN? ==>
      CalculateCosts(q).margin.NaN? && CalculateCosts(q).finalQuote.NaN?
  {
    MarginOf(TotalCost(q), q.marginPercent);
  }

  // ----- Partial lookups -----

  /** Each row priced from a rate table is NaN exactly when its own key is
      missing from that table. */
  lemma TableRowNaNIffUnknownKey(q: QuoteData)
    ensures FloorCost(q).NaN? <==> q.flooringType !in FloorRates
    ensures BathroomCost(q).NaN? <==> q.bathroomType !in BathroomRates
    ensures BuildingAgeCost(q).NaN? <==> q.buildingAge !in BuildingAgeAdders
    ensures DifficultyCost(q).NaN? <==> q.difficulty !in DifficultyAdders
    ensures FootTrafficCost(q).NaN? <==> q.footTraffic !in FootTrafficAdders
  {
  }

  /** The total, the margin and the final quote are numbers exactly when
      every option field is a key of its rate table. */
  lemma DefinedIffKnownKeys(q: QuoteData)
    ensures CalculateCosts(q).totalCost.Finite? <==> KnownKeys(q)
    ensures CalculateCosts(q).margin.Finite? <==> KnownKeys(q)
    ensures CalculateCosts(q).finalQuote.Finite? <==> KnownKeys(q)
  {
  }

  // ----- Pet hair -----

  /** The pet-hair charge is one of three exclusive cases: per square foot,
      a flat 50 whatever the floor area, or nothing for any other option. */
  lemma PetHairCases(petHairOption: string, sqft: real, otherSqft: real)
    ensures var amount := PetHairCost(petHairOption, sqft);
      || (petHairOption == "perSqft" && amount == sqft * 0.03)
      || (petHairOption == "flat" && amount == 50.0)
      || (petHairOption != "perSqft" && petHairOption != "flat" && amount == 0.0)
    ensures petHairOption != "perSqft" ==>
      PetHairCost(petHairOption, otherSqft) == PetHairCost(petHairOption, sqft)
  {
  }

  // ----- Non-negativity -----

  /** No rate table holds a negative rate. */
  lemma TablesNonNegative()
    ensures NonNegativeRates(FloorRates)
    ensures NonNegativeRates(BathroomRates)
    ensures NonNegativeRates(BuildingAgeAdders)
    ensures NonNegativeRates(DifficultyAdders)
    ensures NonNegativeRates(FootTrafficAdders)
  {
  }

  /** A non-negative quantity at a known, non-negative rate costs a number at
      least zero. */
  lemma ScaledNonNegative(quantity: real, table: map<string, real>, key: string)
    requires quantity >= 0.0 && NonNegativeRates(table) && key in table
    ensures Scaled(quantity, table, key).Finite? && Scaled(quantity, table, key).value >= 0.0
  {
    assert table[key] >= 0.0;
  }

  /** A sum of amounts that are all numbers at least zero is a number at
      least zero. */
  lemma {:induction false} SumNonNegative(items: seq<LineItem>)
    requires AllNonNegative(items)
    ensures Sum(items).Finite? && Sum(items).value >= 0.0
  {
    if items != [] {
      assert AllNonNegative(items[1..]) by {
        forall i | 0 <= i < |items[1..]|
          ensures items[1..][i].amount.Finite? && items[1..][i].amount.value >= 0.0
        {
          assert items[1..][i] == items[i + 1];
        }
      }
      SumNonNegative(items[1..]);
    }
  }

  /** A non-negative margin never takes the final quote below a non-negative
      total. */
  lemma FinalAtLeastTotal(t: real, marginPercent: real)
    requires t >= 0.0 && marginPercent >= 0.0
    ensures Add(Finite(t), Margin(Finite(t), marginPercent)).Finite?
    ensures Add(Finite(t), Margin(Finite(t), marginPercent)).value >= t
  {
    assert t * (marginPercent / 100.0) >= 0.0;
  }

  /** With non-negative quantities and known keys every breakdown row and the
      total are numbers at least zero, and a non-negative margin never lowers
      the final quote below the total. */
  lemma NonNegativity(q: QuoteData)
    requires NonNegativeQuantities(q) && KnownKeys(q)
    ensures AllNonNegative(CalculateCosts(q).breakdown)
    ensures CalculateCosts(q).totalCost.Finite? && CalculateCosts(q).totalCost.value >= 0.0
    ensures q.marginPercent >= 0.0 ==>
      CalculateCosts(q).finalQuote.Finite? &&
      CalculateCosts(q).finalQuote.value >= CalculateCosts(q).totalCost.value
  {
    TablesNonNegative();
    ScaledNonNegative(q.sqft, FloorRates, q.flooringType);
    ScaledNonNegative(q.bathroomCount, BathroomRates, q.bathroomType);
    ScaledNonNegative(q.sqft, BuildingAgeAdders, q.buildingAge);
    ScaledNonNegative(q.sqft, DifficultyAdders, q.difficulty);
    ScaledNonNegative(q.sqft, FootTrafficAdders, q.footTraffic);
    var b := Breakdown(q);
    assert AllNonNegative(b);
    SumNonNegative(b);
    SumIdentity(q);
    if q.marginPercent >= 0.0 {
      FinalAtLeastTotal(TotalCost(q).value, q.marginPercent);
    }
  }

  // ----- Monotonicity in square footage -----

  /** A larger quantity at a known, non-negative rate never costs less. */
  lemma ScaledMonotone(s1: real, s2: real, table: map<string, real>, key: string)
    requires s1 <= s2 && NonNegativeRates(table) && key in table
    ensures Scaled(s1, table, key).Finite? && Scaled(s2, table, key).Finite?
    ensures Scaled(s1, table, key).value <= Scaled(s2, table, key).value
  {
    var r := table[key];
    assert r >= 0.0;
    assert s2 * r - s1 * r == (s2 - s1) * r;
  }

  /** When two sequences of numbers agree in length and the first is
      pointwise at most the second, so is its sum. */
  lemma {:induction false} SumMonotone(x: seq<LineItem>, y: seq<LineItem>)
    requires |x| == |y| && AllFinite(x) && AllFinite(y)
    requires forall i :: 0 <= i < |x| ==> x[i].amount.value <= y[i].amount.value
    ensures Sum(x).Finite? && Sum(y).Finite? && Sum(x).value <= Sum(y).value
  {
    if x != [] {
      assert AllFinite(x[1..]) && AllFinite(y[1..]) by {
        forall i | 0 <= i < |x| - 1 ensures x[1..][i] == x[i + 1] && y[1..][i] == y[i + 1] {
        }
      }
      forall i | 0 <= i < |x| - 1 ensures x[1..][i].amount.value <= y[1..][i].amount.value {
        assert x[1..][i] == x[i + 1] && y[1..][i] == y[i + 1];
      }
      SumMonotone(x[1..], y[1..]);
    }
  }

  /** Holding everything else fixed, a larger floor area never lowers the
      total. */
  lemma SqftMonotone(q: QuoteData, s1: real, s2: real)
    requires KnownKeys(q) && s1 <= s2
    ensures CalculateCosts(q.(sqft := s1)).totalCost.Finite?
    ensures CalculateCosts(q.(sqft := s2)).totalCost.Finite?
    ensures CalculateCosts(q.(sqft := s1)).totalCost.value <= CalculateCosts(q.(sqft := s2)).totalCost.value
  {
    var q1, q2 := q.(sqft := s1), q.(sqft := s2);
    TablesNonNegative();
    ScaledMonotone(s1, s2, FloorRates, q.flooringType);
    ScaledMonotone(s1, s2, BuildingAgeAdders, q.buildingAge);
    ScaledMonotone(s1, s2, DifficultyAdders, q.difficulty);
    ScaledMonotone(s1, s2, FootTrafficAdders, q.footTraffic);
    assert PetHairCost(q.petHairOption, s1) <= PetHairCost(q.petHairOption, s2);
    var b1, b2 := Breakdown(q1), Breakdown(q2);
    assert AllFinite(b1) && AllFinite(b2);
    SumMonotone(b1, b2);
    SumIdentity(q1);
    SumIdentity(q2);
  }

  // ----- Worked example -----

  /** Nothing is charged besides the floor and the bathrooms: no adders, no
      pet hair, and every other quantity zero. */
  predicate FloorAndBathroomsOnly(q: QuoteData) {
    && q.buildingAge == "0-5" && q.difficulty == "easy" && q.footTraffic == "low"
    && q.petHairOption == "none"
    && q.furnitureAffectedSqft == 0.0 && q.highAreasSqft == 0.0
    && q.appliances == ApplianceCounts(0.0, 0.0, 0.0, 0.0, 0.0)
    && q.lightFixtures == 0.0 && q.trashBags == 0.0 && q.soapDispensers == 0.0
    && q.airFreshenerInstall == 0.0 && q.airFreshenerMaintenance == 0.0
  }

  /** The three adder rows of such a quote are zero. */
  lemma NoAdders(q: QuoteData)
    requires FloorAndBathroomsOnly(q)
    ensures BuildingAgeCost(q) == Finite(0.0)
    ensures DifficultyCost(q) == Finite(0.0)
    ensures FootTrafficCost(q) == Finite(0.0)
  {
  }

  /** When only the floor and the bathrooms are charged, the total is the
      floor area at its flooring rate plus the bathrooms at their rate. */
  lemma FloorAndBathroomsTotal(q: QuoteData)
    requires FloorAndBathroomsOnly(q)
    requires q.flooringType in FloorRates && q.bathroomType in BathroomRates
    ensures CalculateCosts(q).totalCost ==
      Finite(q.sqft * FloorRates[q.flooringType] + q.bathroomCount * BathroomRates[q.bathroomType])
  {
    NoAdders(q);
  }

  /** The example's table rows: 500 for 5000 square feet of tile, 90 for two
      standard bathrooms, and no adders. */
  lemma ExampleRows(q: QuoteData)
    requires FloorAndBathroomsOnly(q)
    requires q.sqft == 5000.0 && q.flooringType == "tile"
    requires q.bathroomCount == 2.0 && q.bathroomType == "standard"
    ensures FloorCost(q) == Finite(500.0)
    ensures BathroomCost(q) == Finite(90.0)
    ensures BuildingAgeCost(q) == DifficultyCost(q) == FootTrafficCost(q) == Finite(0.0)
  {
    NoAdders(q);
  }

  /** 5000 square feet of tile with two standard bathrooms and nothing else
      at a 35 percent margin: 500 for the floor, 90 for the bathrooms, a total
      of 590, a margin of 206.5 and a final quote of 796.5 (no discount). */
  lemma WorkedExample(q: QuoteData)
    requires FloorAndBathroomsOnly(q)
    requires q.sqft == 5000.0 && q.flooringType == "tile"
    requires q.bathroomCount == 2.0 && q.bathroomType == "standard"
    requires q.marginPercent == 35.0
    ensures FloorCost(q) == Finite(500.0)
    ensures BathroomCost(q) == Finite(90.0)
    ensures CalculateCosts(q).totalCost == Finite(590.0)
    ensures CalculateCosts(q).margin == Finite(206.5)
    ensures CalculateCosts(q).finalQuote == Finite(796.5)
  {
    ExampleTotal(q);
    MarginOf(Finite(590.0), 35.0);
  }

  /** The example's total: 500 for the floor plus 90 for the bathrooms. */
  lemma ExampleTotal(q: QuoteData)
    requires FloorAndBathroomsOnly(q)
    requires q.sqft == 5000.0 && q.flooringType == "tile"
    requires q.bathroomCount == 2.0 && q.bathroomType == "standard"
    ensures FloorCost(q) == Finite(500.0)
    ensures BathroomCost(q) == Finite(90.0)
    ensures TotalCost(q) == Finite(590.0)
  {
    ExampleRows(q);
  }

  /** The worked example is the page's initial record with the floor area
      and the bathroom count filled in. */
  lemma WorkedExampleFromInitialQuote()
    ensures CalculateCosts(InitialQuote.(sqft := 5000.0, bathroomCount := 2.0)).finalQuote == Finite(796.5)
  {
    WorkedExample(InitialQuote.(sqft := 5000.0, bathroomCount := 2.0));
  }
}

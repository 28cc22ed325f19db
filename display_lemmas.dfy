/** What the "Cost Breakdown" card shows: exactly the rows whose charge is
    greater than zero, in breakdown order, and for non-negative input they
    add up to the total. */
module DisplayLemmas {
  import opened JsNumber
  import opened Quotes
  import opened Pricing
  import opened PricingLemmas

  /** A row on its own is shown exactly when its charge is greater than
      zero. */
  lemma DisplayedSingleton(x: LineItem)
    ensures Positive(x.amount) ==> Displayed([x]) == [x]
    ensures !Positive(x.amount) ==> Displayed([x]) == []
  {
    assert [x][1..] == [];
  }

  /** Filtering distributes over concatenation, so the shown rows keep their
      breakdown order. */
  lemma {:induction false} DisplayedConcat(a: seq<LineItem>, b: seq<LineItem>)
    ensures Displayed(a + b) == Displayed(a) + Displayed(b)
  {
    if a == [] {
      assert a + b == b;
    } else {
      assert (a + b)[0] == a[0];
      assert (a + b)[1..] == a[1..] + b;
      DisplayedConcat(a[1..], b);
    }
  }

  /** A row is shown exactly when it is in the breakdown and its charge is
      greater than zero; in particular a NaN charge is never shown. */
  lemma {:induction false} DisplayedMembers(items: seq<LineItem>, x: LineItem)
    ensures x in Displayed(items) <==> x in items && Positive(x.amount)
  {
    if items != [] {
      DisplayedMembers(items[1..], x);
      assert items == [items[0]] + items[1..];
    }
  }

  /** Leaving out rows that are not greater than zero does not change the sum
      when every row is a number at least zero, since those rows are zero. */
  lemma {:induction false} DisplayedSum(items: seq<LineItem>)
    requires AllNonNegative(items)
    ensures Sum(Displayed(items)) == Sum(items)
  {
    if items != [] {
      var rest := items[1..];
      assert AllNonNegative(rest) by {
        forall i | 0 <= i < |rest|
          ensures rest[i].amount.Finite? && rest[i].amount.value >= 0.0
        {
          assert rest[i] == items[i + 1];
        }
      }
      DisplayedSum(rest);
      SumNonNegative(rest);
      if Positive(items[0].amount) {
        var shown := [items[0]] + Displayed(rest);
        assert Displayed(items) == shown;
        assert shown[0] == items[0] && shown[1..] == Displayed(rest);
        assert Sum(shown) == Add(items[0].amount, Sum(Displayed(rest)));
      } else {
        assert items[0].amount == Finite(0.0);
        assert Displayed(items) == [] + Displayed(rest) == Displayed(rest);
      }
    }
  }

  /** For non-negative input with known keys, the rows the card shows add up
      to the total the summary prints. */
  lemma DisplayedAddsUpToTotal(q: QuoteData)
    requires NonNegativeQuantities(q) && KnownKeys(q)
    ensures Sum(Displayed(CalculateCosts(q).breakdown)) == CalculateCosts(q).totalCost
  {
    NonNegativity(q);
    DisplayedSum(Breakdown(q));
    SumIdentity(q);
  }

  /** An unknown flooring type hides the "Floor Cleaning" row, while the
      total and the final quote become NaN. */
  lemma UnknownFlooringHidesFloorRow(q: QuoteData)
    requires q.flooringType !in FloorRates
    ensures forall x :: x in Displayed(CalculateCosts(q).breakdown) ==> x.row != FloorCleaning
    ensures CalculateCosts(q).totalCost.NaN? && CalculateCosts(q).finalQuote.NaN?
  {
    var b := Breakdown(q);
    BreakdownRowsDistinct(q);
    forall x | x in Displayed(b) ensures x.row != FloorCleaning {
      DisplayedMembers(b, x);
      var i :| 0 <= i < |b| && b[i] == x;
      assert b[0].amount.NaN? && b[0].row == FloorCleaning;
      assert i != 0;
      assert b[i].row != b[0].row;
    }
  }

  /** A quote with no floor area, no bathrooms and nothing else costs
      nothing and shows no row. */
  lemma EmptyQuote(q: QuoteData)
    requires FloorAndBathroomsOnly(q) && q.sqft == 0.0 && q.bathroomCount == 0.0
    requires q.flooringType in FloorRates && q.bathroomType in BathroomRates
    ensures CalculateCosts(q).totalCost == Finite(0.0)
    ensures CalculateCosts(q).finalQuote == Finite(0.0)
    ensures Displayed(CalculateCosts(q).breakdown) == []
  {
    EmptyQuoteRows(q);
    MarginOf(Finite(0.0), q.marginPercent);
    NothingShown(Breakdown(q));
  }

  /** When no row is greater than zero the card shows no row. */
  lemma NothingShown(items: seq<LineItem>)
    requires forall i :: 0 <= i < |items| ==> items[i].amount == Finite(0.0)
    ensures Displayed(items) == []
  {
    var shown := Displayed(items);
    if shown != [] {
      DisplayedMembers(items, shown[0]);
    }
  }

  /** Every row of such a quote is zero, and so is the total. */
  lemma EmptyQuoteRows(q: QuoteData)
    requires FloorAndBathroomsOnly(q) && q.sqft == 0.0 && q.bathroomCount == 0.0
    requires q.flooringType in FloorRates && q.bathroomType in BathroomRates
    ensures forall i :: 0 <= i < |Breakdown(q)| ==> Breakdown(q)[i].amount == Finite(0.0)
    ensures TotalCost(q) == Finite(0.0)
  {
    NoAdders(q);
    ZeroAreaRows(q);
  }

  /** No floor area and no bathrooms cost nothing, whatever the types. */
  lemma ZeroAreaRows(q: QuoteData)
    requires q.sqft == 0.0 && q.bathroomCount == 0.0
    requires q.flooringType in FloorRates && q.bathroomType in BathroomRates
    ensures FloorCost(q) == Finite(0.0) && BathroomCost(q) == Finite(0.0)
  {
  }

  /** The page's initial record prices to zero and shows an empty breakdown. */
  lemma InitialQuoteIsEmpty()
    ensures CalculateCosts(InitialQuote).totalCost == Finite(0.0)
    ensures CalculateCosts(InitialQuote).finalQuote == Finite(0.0)
    ensures Displayed(CalculateCosts(InitialQuote).breakdown) == []
  {
    EmptyQuote(InitialQuote);
  }
}

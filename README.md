# Cleaning quote calculator: pricing model

This project models the pricing core of a web calculator for commercial
cleaning quotes. A quote is one `QuoteData` record (src/pages/Index.tsx). The
form (src/components/QuoteForm.tsx) edits it one field at a time. The summary
(src/components/QuoteSummary.tsx) prices it with `calculateCosts` and shows
the breakdown rows that are greater than zero.

`calculateCosts` works in three steps:

- It looks up five rates by string key: flooring, bathroom type, building
  age, difficulty and foot traffic.
- It multiplies each rate by the floor area or the bathroom count, and adds
  fixed per-unit charges (high-reach areas, furniture, five appliances, light
  fixtures, trash, soap dispensers, air fresheners) and a three-way pet-hair
  charge.
- It returns the 18 charges as a labelled breakdown, the total, a margin of
  `marginPercent` percent on the total, and the final quote, which is the
  total plus the margin.

Modules:

- `JsNumber` (js_number.dfy): the JavaScript numbers the calculation uses.
  A number is an exact `real` or NaN. NaN comes from multiplying by a
  missing table entry (`undefined`), and it propagates through `+` and `*`.
- `Quotes` (quotes.dfy): the `QuoteData` record, its appliance sub-record and
  the page's initial record.
- `Pricing` (pricing.dfy): the rate tables, one function per charge, the total,
  the margin, `CalculateCosts`, and `Displayed`, the filter of the "Cost
  Breakdown" card.
- `PricingLemmas` (pricing_lemmas.dfy): the sum and margin identities, NaN
  exactly when a key is unknown, non-negativity, monotonicity in floor area,
  the pet-hair cases, and a worked example.
- `DisplayLemmas` (display_lemmas.dfy): the shown rows are exactly the
  positive ones, in order, and for non-negative input they add up to the
  total.
- `Form` (form.dfy): `updateField` and `updateAppliance`, and the options
  each select or radio group offers with the price its caption advertises.
- `FormLemmas` (form_lemmas.dfy): the updates behave as record writes. The
  name and the service frequency do not affect the price. Every offered
  option is exactly a key of its rate table at the advertised rate.

Where the code and the documented design of the system disagree, the model
follows the code:

- The code applies no discount. The service-frequency and area discounts
  appear only as caption text in the form.
- An option value that is not a key of its table does not raise an error.
  The lookup yields `undefined`, and the row, the total, the margin and the
  final quote become NaN.
- Counts such as bathrooms or trash bags are JavaScript numbers, not
  integers.
- For 5000 square feet of tile, two standard bathrooms and a 35 percent
  margin, the code quotes 796.5, not a discounted amount.

## Model

| member | source | states |
|---|---|---|
| `PricingLemmas.BreakdownRowsDistinct` | src/components/QuoteSummary.tsx:112-131 | the breakdown has 18 entries and no row occurs twice |
| `PricingLemmas.LabelsDistinct` | src/components/QuoteSummary.tsx:113-130 | different rows have different labels, so the breakdown object keeps all 18 keys |
| `PricingLemmas.OnlyTableRowsCanBeNaN` | src/components/QuoteSummary.tsx:62-90 | every breakdown row after the five table-priced rows is a number, never NaN |
| `PricingLemmas.SumIdentity` | src/components/QuoteSummary.tsx:76-131 | `totalCost` equals the sum of the 18 breakdown rows (NaN included), and the five appliance rows sum to `appliancesTotalCost` |
| `PricingLemmas.ApplianceRows` | src/components/QuoteSummary.tsx:76-81 | breakdown rows 8 to 12, added left to right, give the appliance subtotal |
| `PricingLemmas.SumConcat` | src/components/QuoteSummary.tsx:92-106 | the sum of a concatenation is the sum of the parts' sums, so a left-to-right JavaScript sum equals the breakdown's sum |
| `PricingLemmas.SumOfEighteen` | src/components/QuoteSummary.tsx:92-106 | the sum of 18 amounts equals the left-to-right chain that `totalCost` computes, with rows 8 to 12 grouped as a subtotal |
| `PricingLemmas.MarginOf` | src/components/QuoteSummary.tsx:108-109 | for any total, the margin is the percentage of it and the final quote is the total times `1 + marginPercent/100`; a NaN total gives a NaN margin and final quote |
| `PricingLemmas.MarginIdentity` | src/components/QuoteSummary.tsx:108-109 | `margin = totalCost * marginPercent / 100` and `finalQuote = totalCost + margin = totalCost * (1 + marginPercent/100)`; both are NaN when the total is |
| `PricingLemmas.TableRowNaNIffUnknownKey` | src/components/QuoteSummary.tsx:18-59 | each table-priced row is NaN if and only if its option value is not a key of its table |
| `PricingLemmas.DefinedIffKnownKeys` | src/components/QuoteSummary.tsx:18-109 | the total, the margin and the final quote are numbers if and only if all five option values are table keys |
| `PricingLemmas.PetHairCases` | src/components/QuoteSummary.tsx:65-70 | the pet-hair charge is sqft × 0.03 for "perSqft", 50 for "flat" whatever the area, and 0 for any other value; it depends on the area only for "perSqft" |
| `PricingLemmas.TablesNonNegative` | src/components/QuoteSummary.tsx:18-58 | no rate table holds a negative rate |
| `PricingLemmas.ScaledNonNegative` | src/components/QuoteSummary.tsx:27-59 | a non-negative quantity at a known, non-negative rate costs a number of at least zero |
| `PricingLemmas.SumNonNegative` | src/components/QuoteSummary.tsx:92-106 | a sum of numbers that are all at least zero is a number of at least zero |
| `PricingLemmas.FinalAtLeastTotal` | src/components/QuoteSummary.tsx:108-109 | with a non-negative total and margin percentage, the final quote is at least the total |
| `PricingLemmas.NonNegativity` | src/components/QuoteSummary.tsx:18-109 | with non-negative quantities and known keys, every row and the total are numbers of at least zero, and a non-negative margin keeps the final quote at or above the total |
| `PricingLemmas.ScaledMonotone` | src/components/QuoteSummary.tsx:27-59 | at a known, non-negative rate, a larger quantity never costs less |
| `PricingLemmas.SumMonotone` | src/components/QuoteSummary.tsx:92-106 | a pointwise smaller sequence of numbers has a smaller or equal sum |
| `PricingLemmas.SqftMonotone` | src/components/QuoteSummary.tsx:27-106 | with known keys and all else fixed, a larger floor area never lowers the total |
| `PricingLemmas.NoAdders` | src/components/QuoteSummary.tsx:38-59 | at age "0-5", difficulty "easy" and traffic "low", the three adder rows are zero |
| `PricingLemmas.FloorAndBathroomsTotal` | src/components/QuoteSummary.tsx:18-106 | when only floor and bathrooms are charged, the total is sqft × floor rate + bathrooms × bathroom rate |
| `PricingLemmas.ExampleRows` | src/components/QuoteSummary.tsx:19-59 | in the worked example the floor costs 500, the bathrooms 90 and the adders 0 |
| `PricingLemmas.ExampleTotal` | src/components/QuoteSummary.tsx:92-106 | the worked example's total is 590 |
| `PricingLemmas.WorkedExample` | src/components/QuoteSummary.tsx:19-109 | 5000 sq ft of tile, two standard bathrooms, nothing else, 35 percent margin: total 590, margin 206.5, final quote 796.5 |
| `PricingLemmas.WorkedExampleFromInitialQuote` | src/pages/Index.tsx:35-61 | the initial record with 5000 sq ft and two bathrooms filled in quotes 796.5 |
| `DisplayLemmas.DisplayedSingleton` | src/components/QuoteSummary.tsx:209-210 | a single row is shown exactly when its value is greater than zero |
| `DisplayLemmas.DisplayedConcat` | src/components/QuoteSummary.tsx:209-210 | filtering distributes over concatenation, so the shown rows keep their breakdown order |
| `DisplayLemmas.DisplayedMembers` | src/components/QuoteSummary.tsx:209-210 | a row is shown if and only if it is in the breakdown and its value is greater than zero; a NaN row is never shown |
| `DisplayLemmas.DisplayedSum` | src/components/QuoteSummary.tsx:209-210 | when all rows are numbers of at least zero, the shown rows have the same sum as all rows |
| `DisplayLemmas.DisplayedAddsUpToTotal` | src/components/QuoteSummary.tsx:92-211 | with non-negative quantities and known keys, the shown rows add up to `totalCost` |
| `DisplayLemmas.UnknownFlooringHidesFloorRow` | src/components/QuoteSummary.tsx:27-211 | an unknown flooring type hides "Floor Cleaning" and makes the total and the final quote NaN |
| `DisplayLemmas.EmptyQuote` | src/components/QuoteSummary.tsx:92-211 | no area, no bathrooms and nothing else: total 0, final quote 0, no row shown |
| `DisplayLemmas.EmptyQuoteRows` | src/components/QuoteSummary.tsx:18-131 | every breakdown row of such a quote is 0, and so is the total |
| `DisplayLemmas.ZeroAreaRows` | src/components/QuoteSummary.tsx:27-35 | zero square feet and zero bathrooms cost 0 for any known types |
| `DisplayLemmas.NothingShown` | src/components/QuoteSummary.tsx:209-210 | if no row is greater than zero, no row is shown |
| `DisplayLemmas.InitialQuoteIsEmpty` | src/pages/Index.tsx:35-61 | the initial record prices to 0 and shows no breakdown row |
| `Form.UpdateField` | src/components/QuoteForm.tsx:15-17 | the result holds the new value under the field and every other field's old value |
| `Form.SetCount` | src/components/QuoteForm.tsx:22 | the appliance record holds the new count for that appliance and the old counts for the other four |
| `Form.UpdateAppliance` | src/components/QuoteForm.tsx:19-24 | only `appliances[kind]` changes: the other four counts and every top-level field except `appliances` keep their values |
| `FormLemmas.GetFits` | src/pages/Index.tsx:6-32 | every field's current value has the type the record declares for it |
| `FormLemmas.Extensionality` | src/pages/Index.tsx:6-32 | two records that agree on every field are equal |
| `FormLemmas.AgreeOnFirstFields` | src/pages/Index.tsx:7-22 | agreement on every field's value means agreement on the first ten fields |
| `FormLemmas.AgreeOnLastFields` | src/pages/Index.tsx:23-31 | agreement on every field's value means agreement on the last nine fields |
| `FormLemmas.LastWriteWins` | src/components/QuoteForm.tsx:15-17 | two updates of the same field equal the last update alone |
| `FormLemmas.WriteCurrentValueIsNoOp` | src/components/QuoteForm.tsx:15-17 | writing a field's current value returns the same record |
| `FormLemmas.DistinctUpdatesCommute` | src/components/QuoteForm.tsx:15-17 | updates of two different fields commute |
| `FormLemmas.CountsExtensionality` | src/pages/Index.tsx:14-20 | two appliance records with equal counts are equal |
| `FormLemmas.ApplianceUpdateIsFieldWrite` | src/components/QuoteForm.tsx:19-24 | an appliance update is an update of the whole `appliances` field with one count replaced |
| `FormLemmas.ApplianceWrites` | src/components/QuoteForm.tsx:19-24 | for appliance updates, the last write wins, different counts commute, and rewriting a count changes nothing |
| `FormLemmas.UnpricedFieldsIgnored` | src/components/QuoteSummary.tsx:16-136 | changing `quoterName` or `serviceFrequency` leaves the whole calculation unchanged, so no frequency discount is applied |
| `FormLemmas.SameBreakdown` | src/components/QuoteSummary.tsx:112-131 | records that differ only in name, frequency and margin have the same breakdown |
| `FormLemmas.SameTotal` | src/components/QuoteSummary.tsx:92-106 | records that differ only in name, frequency and margin have the same total |
| `FormLemmas.MarginSliderKeepsTotal` | src/components/QuoteSummary.tsx:177-179 | moving the margin slider keeps the breakdown and the total and sets the margin to the new percentage of the total |
| `FormLemmas.FlooringOptionsMatch` | src/components/QuoteForm.tsx:56-62 | the flooring options are exactly the flooring table's keys, each once, and each advertises the table's rate |
| `FormLemmas.FlooringValuesDistinct` | src/components/QuoteForm.tsx:56-62 | no flooring value is offered twice |
| `FormLemmas.FlooringPriced` | src/components/QuoteForm.tsx:56-62 | each offered flooring value is a table key at the advertised price per square foot |
| `FormLemmas.FlooringCovered` | src/components/QuoteForm.tsx:56-62 | every flooring table key is offered |
| `FormLemmas.BathroomOptionsMatch` | src/components/QuoteForm.tsx:75-77 | the bathroom options are exactly the bathroom table's keys at the advertised prices |
| `FormLemmas.BuildingAgeOptionsMatch` | src/components/QuoteForm.tsx:100-102 | the building-age options are exactly the adder table's keys at the advertised adders ("no charge" is 0) |
| `FormLemmas.DifficultyOptionsMatch` | src/components/QuoteForm.tsx:126-128 | the difficulty options are exactly the adder table's keys at the advertised adders |
| `FormLemmas.FootTrafficOptionsMatch` | src/components/QuoteForm.tsx:140-142 | the foot-traffic options are exactly the adder table's keys at the advertised adders |
| `FormLemmas.PetHairOptionsMatch` | src/components/QuoteForm.tsx:163-172 | the three pet-hair values are distinct, each is charged as its caption promises (nothing, +0.03/sqft, +50), and any other value is charged nothing |
| `FormLemmas.OfferedOptionKeepsKeysKnown` | src/components/QuoteForm.tsx:51-142 | choosing an offered option keeps every lookup defined, so the selects alone never make the quote NaN |

## Left out

- Rendering and state: the React components, cards, widgets and `useState` are not modelled. The model works on the record values they pass around.
- `toFixed(2)` rounding for display (src/components/QuoteSummary.tsx:157, 162, 168, 214) is not modelled. Amounts are exact.
- IEEE-754 double arithmetic is not modelled. Numbers are exact reals, so a product such as `sqft * 0.10` has no rounding error.
- Infinity, and NaN typed into a numeric input, are not modelled. The only NaN in the model is the one an unknown table key produces.
- `Number(e.target.value)` parsing in the input handlers is not modelled. Field values arrive already typed.
- The `value || ""` display of zero fields is not modelled.
- The slider bounds on the margin (20 to 60 in steps of 5) are widget constraints. The calculation does not rely on them, and no lemma requires them.
- The download button has no handler, so there is nothing behind it to model.
- Discounts are not modelled, because the code computes none. The frequency and area discount captions (src/components/QuoteForm.tsx:338-353) are text only. `FormLemmas.UnpricedFieldsIgnored` states that the service frequency has no effect on the price.
- `Form.UpdateField` requires the value to have the field's declared type. In the source the value is typed `any`, but every caller passes a value of the field's type.
- The per-unit prices in the form's captions for quantity fields (for example "Ovens ($40 each)") are not cross-checked against the calculation. Only the select and radio options are.
- The header, the card titles and `quoterName` are not modelled beyond the record. `quoterName` is not used by any computation.

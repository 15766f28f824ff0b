# Credit calculator engine, modelled in Dafny

This project models the calculation engine of a browser credit calculator (`app.js`). The calculator prices usage of a data platform in credits. A user enters a volume and a frequency (one-time, daily, weekly or monthly) for each of 17 usage types. The engine does four things:

- It computes each usage type's annual credits as volume × multiplier × annualisation factor.
- It folds those credits into annual, monthly and daily totals, using a fixed rule per frequency.
- It derives an estimated cost from the annual total.
- For export, it builds a snapshot. The snapshot holds the usage types with a positive volume, in catalog order, plus their totals.

Modules:

- `Catalog` (`catalog.dfy`): the 17 usage types in two ordered groups (data services, then segmentation and activation), the frequency table, the pricing constants, and the catalog invariant (ids unique, multipliers positive).
- `Engine` (`engine.dfy`): `calculateCredits` over a volume that may be missing, not a number or a number; the per-frequency bucket rule; the cost formula.
- `Summary` (`summary.dfy`): `updateTotals` as a method with a loop, proved equal to recursive folds (`DashboardTotals`, `CreditSum`, `DetailsOf`), with lemmas about those folds.
- `Export` (`export.dfy`): `collectExportData` as a method with a loop, proved equal to a filter (`Services`) and a fold (`ExportTotals`), with lemmas relating them to the dashboard.

The form is a sequence of `Input`s, one per usage type, in the order the usage types are given. The volume is what `parseFloat` produced, and the frequency is a `SelectorFrequency`: a canonical `Frequency`, so `Other` only ever carries a key outside the four options. The engine applies `|| 0` to it (`Quantity`) exactly as both loops do.

The model follows the code's bucket rules as written, including two quirks:

- A monthly item adds its annualised credits (12 occurrences' worth) to the monthly total, not one occurrence's worth (app.js:254, app.js:513). The model keeps this. `Summary.MonthlyPipelineScenario` shows the effect: volume 3 at multiplier 2000 puts 72000 on the monthly total, not 6000.
- A frequency key outside the four options is charged at factor 1 by `calculateCredits`, but it matches no branch of the if-chain. Its credits therefore reach no total, although they do reach `totalCredits` and the details.

## Model

| member | source | states |
|---|---|---|
| `Catalog.FrequencyOf` | app.js:242-256 | reading a selector value keeps the key, gives a known case exactly for the four table keys, and is canonical |
| `Catalog.FrequencyKeyRoundTrip` | app.js:130-135 | the key of a canonical frequency reads back as the same frequency |
| `Catalog.Factor` | app.js:130-135 | every annualisation factor is at least 1, and it is exactly 1 for one-time and for unknown keys |
| `Catalog.OtherActsAsOneTime` | app.js:191 | an unknown key gets the same factor as one-time (the fallback to 1 for a missing table entry) |
| `Catalog.FactorTable` | app.js:130-135 | onetime→1, daily→365, weekly→52, monthly→12, and any other key→1 |
| `Catalog.DataServiceIdsDistinct` | app.js:4-103 | no two data services share an id |
| `Catalog.SegmentationIdsDistinct` | app.js:105-127 | no two segmentation/activation types share an id, and none shares an id with a data service |
| `Catalog.DataServicesComeFirst` | app.js:223 | in the walk order (data services, then segmentation/activation), a usage type is a data service exactly when it stands in the first 14 positions |
| `Catalog.CatalogIsValid` | app.js:3-128 | 14 data services plus 3 segmentation/activation types, 17 in all; every multiplier is positive and every id is unique |
| `Engine.Quantity` | app.js:226 | the fallback to 0: a number is kept, a missing or not-a-number value becomes 0, and the result is positive exactly when the volume is a positive number |
| `Engine.CalculateCredits` | app.js:189-193 | 0 for every non-positive, missing or NaN volume; with a positive multiplier the credits are positive exactly when the volume is positive; never negative when the multiplier is non-negative |
| `Engine.NonPositiveVolumeCostsNothing` | app.js:190 | a missing, NaN, zero or negative volume gives exactly 0, for every multiplier and frequency |
| `Engine.PositiveVolumeCredits` | app.js:191-192 | for a positive volume, credits = volume × multiplier × factor, spelled out for each frequency |
| `Engine.QuantityKeepsCredits` | app.js:226-228 | replacing the volume by its quantity before `calculateCredits`, as the callers do, does not change the credits |
| `Engine.Bucket` | app.js:242-256 | an item adds nothing exactly when its key is unknown or its credits are 0; otherwise it adds its credits to the annual total; one-time adds nothing to monthly or daily; non-negative credits give non-negative contributions |
| `Engine.DailyAndWeeklySpreadAlike` | app.js:244-251 | daily and weekly are spread identically: a twelfth of the credits per month and a 365th per day |
| `Engine.MonthlyAddsAnnualisedCredits` | app.js:252-256 | a monthly item adds 12 × volume × multiplier (its annual credits) to the monthly total, and a thirtieth of that to the daily total |
| `Engine.Cost` | app.js:137-140 | cost = annual credits / 100000 × 1000 = annual credits / 100; not negative for non-negative credits |
| `Engine.CostIsLinear` | app.js:520 | the cost is additive and homogeneous in the annual credits, and 0 at 0 |
| `Summary.ItemCredits` | app.js:496-498 | an item's credits are `calculateCredits` of its raw volume; 0 when the quantity is not positive; positive exactly when the quantity is (positive multiplier) |
| `Summary.DetailsOfAt` | app.js:516 | the k-th dashboard detail is the k-th usage type's name and credits |
| `Summary.UpdateTotals` | app.js:491-520 | the loop's totals are the fold of the bucket rule over all items; `totalCredits` is the sum of all credits; one detail per item, in order; cost = `Cost(totalAnnual)` |
| `Summary.AnnualIsRecognisedCreditSum` | app.js:501-515 | the annual total is the sum of the credits of the items with a known frequency |
| `Summary.AnnualIsCreditSum` | app.js:501-517 | when every frequency is known, the annual total equals the `totalCredits` accumulator |
| `Summary.TotalsNonNegative` | app.js:498-517 | with non-negative multipliers, all three totals and the credit sum are at least 0 |
| `Summary.NoPositiveInputCostsNothing` | app.js:495-520 | with no positive volume, all totals and the credit sum are 0, so the cost (`Engine.Cost` of 0) is 0 too |
| `Summary.TotalsIgnoreOrder` | app.js:495-515 | swapping two neighbouring items (with their inputs) leaves the totals of every prefix that holds both or neither of them unchanged |
| `Summary.TotalsIgnorePermutation` | app.js:495-515 | the totals do not depend on the order of the walk: two forms whose (usage type, input) rows are permutations of each other (the same multiset of rows) have the same totals |
| `Summary.MonthlyPipelineScenario` | app.js:252-256 | batch pipeline (multiplier 2000), volume 3, monthly: annual 72000, monthly 72000, daily 2400 |
| `Summary.DailyWeeklyScenario` | app.js:244-251 | 2 × 10 daily plus 1 × 5 weekly: annual 7560, monthly 630, daily 7560/365 |
| `Export.CollectExportData` | app.js:209-267 | the snapshot carries the given timestamp and the calculator name; its summary is the bucket fold over the items with a positive volume; its services are those items' records, in order |
| `Export.SelectedIsFilter` | app.js:223-230 | an item is exported exactly when its volume is positive, and exported positions come in increasing catalog order |
| `Export.ServicesFollowSelected` | app.js:230-258 | the k-th service record is the record of the k-th exported item: name, description, volume, unit, frequency, multiplier and credits |
| `Export.ServiceRecordsAreConsistent` | app.js:231-239 | every service record has a positive volume, and its `totalCredits` equals `calculateCredits` of its own volume, multiplier and frequency |
| `Export.ExportTotalsMatchDashboard` | app.js:230-256 | the export summary equals the dashboard totals for the same form, because the left-out items carry 0 credits |
| `Export.EmptyFormExportsNothing` | app.js:230-264 | with no positive volume the snapshot has no services and zero totals |
| `Export.ServicesInCatalogOrder` | app.js:223 | over the shipped catalog, no segmentation/activation record comes before a data-service record |

## Left out

- DOM rendering and event wiring (`renderSection`, the `DOMContentLoaded` handler, dashboard and tips markup, input and change listeners): presentation only. `Summary.Dashboard` holds everything `updateTotals` computes: the three totals, `totalCredits`, the details and the cost. The page displays only the three totals (app.js:525-527) and each item's credits (app.js:499); `totalCredits`, the details and the cost are computed but not shown.
- Reading the form (`document.getElementById(...).value` and `parseFloat`): the model starts from the parsed volume (`Engine.Volume`) and the selected frequency. A form holds exactly one input per usage type, as the rendered page does.
- `generateHTMLReport` and `formatNumber`: string templating over the locale-dependent number and date formatting of the browser, which cannot be specified here.
- `exportToPDF`, `exportToHTML`, `generatePDF` and `downloadFile`: windows, printing, timers and downloads are I/O.
- The timestamp `new Date().toISOString()` is a parameter of `Export.CollectExportData` rather than a clock reading. The static `optimizationTips` text is not modelled.
- Floating point: quantities, multipliers and totals are exact reals. IEEE-754 rounding, infinities and negative zero are not modelled. The source does no rounding before display.
- Engine.CalculateCredits: an unknown key that names an inherited object property (such as `constructor`) would make the table lookup return a non-number in the source. The model treats every unknown key as missing from the table, so it gets factor 1.

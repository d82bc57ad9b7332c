# Jewellery inventory checkout — a Dafny model

This project models the sequential core of a jewellery shop's inventory and
checkout application:

- **Checkout screen** (`Billing`, class `Billing.Checkout`): the cart of
  ornaments, filled by scanning or typing an ornament id or by picking an item
  from a type's list. It also covers removing entries and the bill summary
  (subtotal, 3% tax, total). Completing the sale checks the guards, builds the
  request and resets the screen when the sale succeeds.
- **Item lookup** (`ScanItem`): `POST /api/scan-item`. It finds an unsold
  ornament by id, or lists the unsold ornaments of a type. Each result gets the
  selling price `round(costPrice × 1.03)`, defined in `Inventory`.
- **Sales history** (`Sales`): `GET /api/sales`. It keeps the bills with a
  sold item, optionally within one day and optionally matching a client
  name/phone substring. Bills come newest first, each flattened into the view
  the history screen shows, with the `BILL-000042` number.
- **Merchant statistics** (`Merchants`): `GET`/`POST /api/merchant`. These are
  the counts and the cost total over a merchant's ornaments, and each
  ornament's status.

The store is an in-memory sequence of records, in the store's own order.
Responses are datatypes. The lookup's answer and the sale endpoint's success
are parameters of the checkout handlers. Money is exact `real`. `Math.round`
is `(x + 1/2).Floor`, so halves round up. Timestamps are integers in
milliseconds, and one day is the constant `Sales.DAY`. A JavaScript string
that is absent and one that is empty are both falsy, so both are `""` here.
`Order` holds the newest-first sort that both `orderBy: { createdAt: 'desc' }`
clauses use. `Text` holds `trim`, `contains`, `toString` and `padStart`.

Where the intended design and the code differ, the model follows the code:

- The dropdown add performs no duplicate check and does not round its price.
- A negative cost is not rejected.
- The sales query keeps its "has a sold item" filter.
- The id lookup as written cannot succeed (see Findings). The rest of the model
  uses the corrected lookup.

## Model

| member | source | states |
|---|---|---|
| `Inventory.Round` | app/api/scan-item/route.ts:57 | `Math.round`: the result lies in (x − ½, x + ½], so halves round up |
| `Inventory.RoundIsNearest` | app/api/scan-item/route.ts:57 | an integer is `Round(x)` exactly when it lies in (x − ½, x + ½] |
| `Inventory.SellingPrice` | app/api/scan-item/route.ts:57 | the selling price is within half a unit of `costPrice × 1.03` |
| `Inventory.SellingPriceMonotonic` | app/api/scan-item/route.ts:57 | a higher cost never gives a lower selling price |
| `Inventory.SellingPriceNonNegative` | app/api/scan-item/route.ts:57 | a non-negative cost gives a non-negative price |
| `Inventory.SellingPriceExamples` | app/api/scan-item/route.ts:57 | 1000 → 1030; 50 → 51.5 → 52 at the half boundary; 150 → 155 |
| `ScanItem.FindAvailable` | app/api/scan-item/route.ts:11-16 | `findFirst`: the answer is a stored, unsold ornament with that id; no answer means none exists |
| `ScanItem.AvailableOfType` | app/api/scan-item/route.ts:19-23 | an ornament is kept iff it is in the store, of the type, and unsold |
| `ScanItem.AvailableOfTypeConcat` | app/api/scan-item/route.ts:19-23 | the type filter keeps store order: on a split store, it lists the first part's matches, then the second part's |
| `ScanItem.ListAvailable` | app/api/scan-item/route.ts:24-37 | one listing per available ornament, in order, with its selected fields and price |
| `ScanItem.Lookup` | app/api/scan-item/route.ts:9-65 | corrected lookup: the result lists items iff there is no `qrCode` and `type` is set; a found item comes from the store, matches the code, is unsold and is priced by `SellingPrice` |
| `ScanItem.LookupAsWritten` | app/api/scan-item/route.ts:9-71 | lookup as written: it fails with the 500 iff a `qrCode` is given or no `type` is given |
| `ScanItem.AsWrittenAgreesOnTypeLookups` | app/api/scan-item/route.ts:17-39 | both versions agree on type-only requests |
| `ScanItem.AsWrittenLosesIdLookup` | app/api/scan-item/route.ts:11-71 | for an unsold R-001 of cost 1000, the corrected lookup finds it at 1030 but the written one answers 500 |
| `ScanItem.FoundIffAvailable` | app/api/scan-item/route.ts:11-16 | an id lookup succeeds iff the store holds an unsold ornament with exactly that id |
| `ScanItem.QrCodeTakesPrecedence` | app/api/scan-item/route.ts:9-17 | with a `qrCode`, the `type` field is ignored and no list is returned |
| `ScanItem.SoldAndAbsentLookAlike` | app/api/scan-item/route.ts:42-47 | a sold ornament and a missing one both give the same 404 |
| `ScanItem.TypeLookupExact` | app/api/scan-item/route.ts:19-39 | the type lookup always succeeds, even when empty; it lists every unsold ornament of the type and nothing else |
| `Text.Trim` | app/billing/page.tsx:46 | `trim()` is empty iff every character is whitespace; otherwise it starts and ends with non-whitespace |
| `Text.TrimStart` | app/billing/page.tsx:46 | removes exactly the leading whitespace |
| `Text.TrimEnd` | app/billing/page.tsx:46 | removes exactly the trailing whitespace |
| `Text.Contains` | app/api/sales/route.ts:34-35 | Prisma `contains`: `sub` occurs in `s` at some offset, case-sensitively. No `ensures`; its partners are `Text.ContainsIsCaseSensitive` and `Sales.SalesHistorySound`, which states that every listed sale's name or phone contains the search |
| `Text.ContainsIsCaseSensitive` | app/api/sales/route.ts:32-37 | the chosen substring match is case-sensitive |
| `Text.DecimalDigits` | app/api/sales/route.ts:62 | `toString()`: one or more digits, with no leading zero unless the value is 0 |
| `Text.ParseDecimalDigits` | app/api/sales/route.ts:62 | reading the printed digits gives the number back |
| `Text.PadStart` | app/api/sales/route.ts:62 | `padStart`: the length is max(\|s\|, width); `s` is kept whole at the end, preceded only by fill |
| `Text.ParseDecimalLeadingZeros` | app/api/sales/route.ts:62 | leading zeros do not change the value of a digit string |
| `Order.InsertNewest` | app/api/sales/route.ts:54-56 | inserting into a newest-first list keeps it newest-first and adds exactly one element |
| `Order.SortNewestFirst` | app/api/sales/route.ts:54-56 | `createdAt` desc: the result is newest-first and a permutation of the input |
| `Order.SortKeepsMembers` | app/api/sales/route.ts:54-56 | sorting neither adds nor drops a record |
| `Order.SortIsStable` | app/api/sales/route.ts:54-56 | for every `createdAt` value, the records with that key appear in the result in their store order, so ties are broken by store order |
| `Order.SortOrderedIsIdentity` | app/api/sales/route.ts:54-56 | an already strictly newest-first list is unchanged |
| `Sales.HasSoldItem` | app/api/sales/route.ts:13-21 | `billitem: { some: { ornament: { isSold: true } } }`: some line of the bill is a sold ornament. No `ensures`; its partners are `Sales.SalesHistorySound` and `Sales.EmptyBillNeverListed` |
| `Sales.WithinDay` | app/api/sales/route.ts:23-28 | `gte: date, lt: date + 1 day`: `date ≤ createdAt < date + DAY`. No `ensures`; its partner is `Sales.SalesHistorySound` |
| `Sales.MatchesSearch` | app/api/sales/route.ts:32-37 | the `OR` of `contains` on the client's name and phone. No `ensures`; its partners are `Sales.SalesHistorySound` and `Text.ContainsIsCaseSensitive` |
| `Sales.Selected` | app/api/sales/route.ts:13-37 | the whole where clause: `HasSoldItem`, plus `WithinDay` when a date is given and `MatchesSearch` when a search is given. No `ensures`; its partners are `Sales.Matching`, `Sales.SalesHistoryComplete` and `Sales.SalesHistorySound` |
| `Sales.Matching` | app/api/sales/route.ts:13-37 | a bill is kept iff it is stored and passes the base, date and search conditions |
| `Sales.BillNumber` | app/api/sales/route.ts:62 | `BILL-` then the id's digits, zero-padded to at least 6 and never truncated |
| `Sales.BillNumberRoundTrip` | app/api/sales/route.ts:62 | the bill number reads back as the bill's id |
| `Sales.BillNumberInjective` | app/api/sales/route.ts:62 | different ids give different bill numbers |
| `Sales.BillNumberPadded` | app/api/sales/route.ts:62 | id 42 gives `BILL-000042` |
| `Sales.BillNumberNotTruncated` | app/api/sales/route.ts:62 | id 1234567 gives `BILL-1234567` |
| `Sales.View` | app/api/sales/route.ts:60-75 | client fields and date are copied; `items` is the item count; `total` is the stored amount; one detail per item, in order, with its stored price |
| `Sales.Views` | app/api/sales/route.ts:60-75 | one view per bill, in the same order |
| `Sales.SalesHistory` | app/api/sales/route.ts:40-77 | one view per matching bill, dates non-increasing, each the view of a stored bill that passes the filters |
| `Sales.SalesHistoryComplete` | app/api/sales/route.ts:13-37 | every stored bill that passes the filters is listed |
| `Sales.SalesHistorySound` | app/api/sales/route.ts:13-37 | every listed sale has ≥ 1 item; with a date, `date ≤ createdAt < date + 1 day`; with a search, the name or phone contains it |
| `Sales.EmptyBillNeverListed` | app/api/sales/route.ts:13-21 | a bill without items is never returned |
| `Sales.PaymentMethodIgnored` | app/api/sales/route.ts:9-30 | `paymentMethod` has no effect on the answer |
| `Sales.MatchingIgnoresPaymentMethod` | app/api/sales/route.ts:9-37 | the filtered bills do not depend on `paymentMethod` |
| `Merchants.InStock` | app/api/merchant/route.ts:36 | every kept ornament is unsold |
| `Merchants.SoldOnes` | app/api/merchant/route.ts:37 | every kept ornament is sold |
| `Merchants.FiltersExact` | app/api/merchant/route.ts:36-37 | `inStock` keeps exactly the unsold ornaments and `sold` exactly the sold ones |
| `Merchants.InStockPlusSold` | app/api/merchant/route.ts:35-37 | in stock + sold = number of ornaments |
| `Merchants.StatsOf` | app/api/merchant/route.ts:35-38 | `inStock + sold == totalOrnaments == \|ornaments\|` |
| `Merchants.TotalCost` | app/api/merchant/route.ts:38 | the `totalValue` reduce: the sum of every ornament's `costPrice`, sold or not. No `ensures`; its partners are `Merchants.TotalCostBounds`, `Merchants.StatsOfConcat` and `Merchants.PermutationKeepsTallies` |
| `Merchants.TotalCostBounds` | app/api/merchant/route.ts:38 | with non-negative costs, `totalValue` covers every ornament's cost, sold or not |
| `Merchants.WithStatus` | app/api/merchant/route.ts:41-44 | same length and order; status is `"sold"` iff sold and `"in_stock"` iff unsold |
| `Merchants.StatusCountsMatchStats` | app/api/merchant/route.ts:35-44 | the number of `"sold"` statuses equals `sold`, and of `"in_stock"` equals `inStock` |
| `Merchants.StatsOfConcat` | app/api/merchant/route.ts:35-38 | each statistic of a joined list is the sum of the parts' statistics |
| `Merchants.StatsWithout` | app/api/merchant/route.ts:35-38 | removing one ornament removes its share from each statistic |
| `Merchants.StatsOfPermutation` | app/api/merchant/route.ts:35-38 | the statistics do not depend on the ornaments' order |
| `Merchants.PermutationKeepsTallies` | app/api/merchant/route.ts:35-38 | counts and total cost are unchanged by reordering |
| `Merchants.FindMerchant` | app/api/merchant/route.ts:11-25 | the answer is a stored merchant with that code; no answer means none exists |
| `Merchants.GetMerchants` | app/api/merchant/route.ts:9-78 | 404 iff a code is given and no merchant has it. With no code, every merchant in store order, each with `StatsOf` its ornaments. Otherwise the detail of the merchant `findUnique` returns: its code, name and phone, its ornaments reordered newest first, `StatsOf` those ornaments, and `WithStatus` of them (one status per ornament, in order) |
| `Merchants.BranchesAgree` | app/api/merchant/route.ts:35-67 | with unique codes, the single-merchant and all-merchants branches report the same statistics for a merchant |
| `Merchants.CreatedMerchant` | app/api/merchant/route.ts:106-112 | a new merchant has no ornaments and reports 0, 0, 0, 0 |
| `Merchants.CreatedMerchantStatsConsistent` | app/api/merchant/route.ts:106-112 | the zeroed statistics are the statistics of an empty ornament list |
| `Billing.FromFound` | app/billing/page.tsx:66 | a scanned item enters the cart with its id and its rounded lookup price |
| `Billing.FromListing` | app/billing/page.tsx:301-304 | a dropdown item enters with its id and price `costPrice × 1.03`, unrounded |
| `Billing.InCart` | app/billing/page.tsx:57 | the `some` duplicate test: some cart entry has the id. No `ensures`; its partners are `Billing.ScanOutcomeOf`, `Billing.Without` (no entry with the id remains) and `Billing.IdOccursOnce` |
| `Billing.ScanOutcomeOf` | app/billing/page.tsx:46-78 | skipped iff the input is all whitespace; added iff a found item's id is not in the cart; "already added" iff it is |
| `Billing.CartAfterScan` | app/billing/page.tsx:55-67 | unchanged unless added; an add appends exactly the found item and keeps the earlier entries; ids stay distinct |
| `Billing.ScanAddsExactlyAvailable` | app/billing/page.tsx:46-57 | against the lookup, a scan adds iff an unsold ornament has exactly the (untrimmed) input as id and the cart lacks it |
| `Billing.FirstWithId` | app/billing/page.tsx:297-299 | `find`: no result iff no listing has the id, otherwise the first listing with it |
| `Billing.CartAfterDropdown` | app/billing/page.tsx:296-304 | unchanged if the id is not listed; otherwise appends that id with price `costPrice × 1.03` |
| `Billing.DropdownMayDuplicate` | app/billing/page.tsx:296-304 | the dropdown can add an id already in the cart |
| `Billing.DropdownPriceIsUnrounded` | app/billing/page.tsx:301-304 | for cost 50, scanning gives 52 but the dropdown gives 51.5 |
| `Billing.Without` | app/billing/page.tsx:130-132 | no entry with the id remains; an absent id is a no-op |
| `Billing.WithoutKeepsOthers` | app/billing/page.tsx:131 | every entry with another id is kept as often as it occurred |
| `Billing.WithoutConcat` | app/billing/page.tsx:131 | removal distributes over concatenation, so kept entries keep their order |
| `Billing.RemoveFromDistinct` | app/billing/page.tsx:131 | in a duplicate-free cart, removing an entry's id removes just that entry |
| `Billing.IdOccursOnce` | app/billing/page.tsx:57 | in a duplicate-free cart, no other entry has entry k's id |
| `Billing.SubtotalAfterRemove` | app/billing/page.tsx:130-137 | in a duplicate-free cart, removing an entry lowers the subtotal by its price |
| `Billing.Subtotal` | app/billing/page.tsx:135-137 | `calculateSubtotal`: the sum of the cart's selling prices. No `ensures`; its partners are `Billing.SubtotalConcat`, `Billing.SubtotalAfterRemove`, `Billing.LinesSumOfCart` and `Billing.SummaryNonNegative` |
| `Billing.Tax` | app/billing/page.tsx:140-142 | tax is the integer nearest 3% of the subtotal, halves up |
| `Billing.Total` | app/billing/page.tsx:145-147 | total − subtotal is the tax; total is within ½ of 103% of the subtotal |
| `Billing.EmptySummary` | app/billing/page.tsx:135-147 | an empty cart gives 0, 0, 0 |
| `Billing.SubtotalConcat` | app/billing/page.tsx:135-137 | the subtotal of a joined cart is the sum of the parts' subtotals |
| `Billing.SummaryNonNegative` | app/billing/page.tsx:135-147 | non-negative prices give non-negative subtotal and tax, and total ≥ subtotal |
| `Billing.DoubleMarkup` | app/billing/page.tsx:135-147 | one scanned ornament's total is within 1.015 of cost × 1.0609: the 3% applies twice |
| `Billing.PayloadItems` | app/billing/page.tsx:172-175 | one `(ornamentId, sellingPrice)` pair per cart entry, in cart order |
| `Billing.PrepareSale` | app/billing/page.tsx:150-180 | client dialog iff name or phone is empty; "no items" iff the client is set and the cart is empty; otherwise the payload has the client, the cart's pairs, and `Subtotal`, `Tax`, `Total` and the payment method |
| `Billing.LinesSumOfCart` | app/billing/page.tsx:172-176 | the payload's prices sum to the cart's subtotal |
| `Billing.SaleRequestConsistent` | app/billing/page.tsx:169-180 | a sent payload has ≥ 1 line; its lines sum to its subtotal; total = subtotal + tax |
| `Billing.ScanExampleCart` | app/billing/page.tsx:45-67 | scanning R-001 (cost 1000) into an empty cart gives one entry at 1030 |
| `Billing.SummaryExample` | app/billing/page.tsx:135-147 | that cart shows subtotal 1030, tax 31, total 1061 |
| `Billing.SellExample` | app/billing/page.tsx:150-180 | selling that cart to Asha sends `[("R-001", 1030)]`, 1030, 31, 1061, "cash" |
| `Billing.Checkout.constructor` | app/billing/page.tsx:32-40 | empty cart and input, client `{0, "", ""}`, payment `"cash"` |
| `Billing.Checkout.SetQrInput` | app/billing/page.tsx:240 | the input field becomes the typed text |
| `Billing.Checkout.SetClientName` | app/billing/page.tsx:453 | only the client's name changes |
| `Billing.Checkout.SetClientPhone` | app/billing/page.tsx:463 | only the client's phone changes |
| `Billing.Checkout.SetPaymentMethod` | app/billing/page.tsx:403 | the payment method becomes the chosen one |
| `Billing.Checkout.HandleScanQR` | app/billing/page.tsx:45-88 | cart per `CartAfterScan`; input cleared only on add; client and payment method untouched |
| `Billing.Checkout.SelectFromDropdown` | app/billing/page.tsx:296-304 | adds iff some listing has the id; cart per `CartAfterDropdown` |
| `Billing.Checkout.RemoveItem` | app/billing/page.tsx:130-132 | the cart becomes `Without(cart, id)` |
| `Billing.Checkout.CompleteSale` | app/billing/page.tsx:150-204 | sends `PrepareSale`'s request; on success resets cart, client and payment method; otherwise changes nothing |

## Left out

- Prisma queries, `fetch`, `request.json` and `NextResponse` are foreign library
  calls. The store is a sequence of records and the responses are datatypes.
- The sale finalization endpoint `/api/generate-bill` is not part of this model.
  That includes its transaction, its atomicity and concurrent checkouts. Only
  the payload the checkout screen sends is modelled.
- UI-only behaviour is not modelled: JSX rendering, toasts, dialogs, tabs, the
  camera scanner, and the delayed auto-submit after a camera scan. Opening the
  bill PDF and React's batched state updates are left out too.
- `handleTypeSelect`, which fills the dropdown's list, is left out. The list is
  a parameter of `Billing.Checkout.SelectFromDropdown`.
- A request that throws on the client leaves the state exactly as an
  unsuccessful answer does, so it is not a separate case.
- Binary floating-point error in `* 1.03` and `* 0.03` is not modelled; the
  arithmetic is exact on `real`.
- Date strings, their parsing, and the local-timezone/DST effect of adding one
  day are not modelled. A date is the integer start of the day, and a day is
  86 400 000 ms.
- Prisma `contains` depends on the database collation. The model matches
  substrings case-sensitively.
- The store leaves the order of bills or ornaments with equal `createdAt`
  open. The model keeps them in store order, as `Order.SortIsStable` states.
- Merchant creation itself is not modelled, including its failure on a
  duplicate code. `Merchants.CreatedMerchant` is the response to a creation
  that succeeded.
- The bills joined onto each ornament in the single-merchant answer are not
  modelled.
- The 500 answers of the sales and merchant endpoints are not modelled. They
  come from these causes:
  - a failure of the store itself;
  - in the sales route, a `date` that does not parse (app/api/sales/route.ts:25-26
    builds an Invalid Date, and the query rejects it), which follows from date
    parsing being left out;
  - in the merchant `POST`, a body without `merchantCode`, `name` or `phone`,
    or with a code already in use (app/api/merchant/route.ts:94 rejects the
    create), which follows from merchant creation being left out.
- A cart entry keeps the fields the cart uses: id, type, weight, purity, cost,
  merchant and price. A scanned entry also carries the ornament's other stored
  fields (`isSold`, `createdAt`), which the cart never reads.

## Findings

| source | as written | input that shows it | evidently intended | confidence | as-written member | corrected member |
|---|---|---|---|---|---|---|
| app/api/scan-item/route.ts:11 | `const ornament` is declared inside the `if (qrCode)` block. The checks at lines 42 and 57 read a name that is not in scope there, so every id lookup throws and is answered by the 500 handler (lines 66-71). A request with neither field also answers 500. | store = [unsold R-001, cost 1000]; request `{ qrCode: "R-001" }` | 200 with the ornament and `sellingPrice` 1030. An unsold absent id gives the 404 "Item not found or already sold", and so does a request with neither field. | high; not executed | `ScanItem.LookupAsWritten`, exhibited by `ScanItem.AsWrittenLosesIdLookup` | `ScanItem.Lookup`, with `ScanItem.FoundIffAvailable` proved |

# Point-of-sale pages: a Dafny model

This project models the calculation logic of the four client pages of a small
point-of-sale web app:

- **Reports page.** It validates the report selection (today's sales, sales
  between two dates, or sales of one item). It folds the fetched bills into one
  row per item name, holding the quantity sold and the takings. It also builds
  the printed report.
- **Cart page.** It computes the cart subtotal and builds the payloads of the
  "+" and "-" quantity buttons. It creates the bill, with the tax amount and
  the total, from the invoice form. It also prints the invoice.
- **Item page.** It derives the category list. It adds an item, rejecting a
  duplicate name. It replaces an edited item by `_id` and deletes by `_id`.
- **Home page.** It builds the category buttons, with "all" first, and the
  items shown for the selected category.

The modules follow the pages:

- `Reports` covers the reports page.
- `Invoice` covers the cart page.
- `Catalog` covers the item page.
- `Storefront` covers the home page.
- `Records` holds the shared records: item, cart line, bill.
- `Seqs` holds the generic sequence functions (sum, filter, map, de-duplication
  in first-seen order) and their lemmas.
- `Outcomes` holds `Option` and `Result`.

Amounts are exact:

- Prices, quantities, line totals, subtotals and report sums are integers,
  with prices in minor currency units.
- The tax percentage, the tax amount and the bill total are reals.

Timestamps are integers. A picked calendar day is given by its first and last
instant, so the caller supplies the start-of-day and end-of-day resolution.

The report fold is modelled twice:

- `Reports.ProcessReportData` is the page's own loop. It walks bill by bill
  and line by line, keeping an accumulator of names in insertion order with
  their running totals.
- `Reports.Tabulate` over `Reports.Survivors` is a declarative reference
  report.

The method is proved to return exactly the reference report. The reference
report is then proved to conserve quantities and takings, to have one row per
distinct surviving name, and to behave as stated in each mode.

The bills reach the page from the "get all bills" route. That route returns
every stored bill, newest first, and ignores the query parameters the page
sends. The page filters by date only in the date-range mode, so the "Today's
Sales" report covers every stored bill. This is modelled as written. It is
recorded under Findings, together with a corrected selection.

## Model

| member | source | states |
|---|---|---|
| Reports.Validate | client/src/pages/ReportsPage.js:57-74 | The "select a date range" error is returned exactly when a date-range report has a picker value whose length is not two. The "select an item" error is returned exactly when an item report has no chosen item. A cleared picker makes generation fail with the generic error. Otherwise the selection carries the first day's start and the last day's end, or the item name. |
| Reports.Survivors | client/src/pages/ReportsPage.js:93-108 | The line items the accumulator receives each pass the mode's line test. No bills give no line items. |
| Reports.SurvivorsMembers | client/src/pages/ReportsPage.js:93-108 | A line item reaches the accumulator exactly when it passes the line test and belongs to a bill that passes the date test. |
| Reports.DailyTakesEveryLine | client/src/pages/ReportsPage.js:93-104 | In the daily mode no bill and no line item is skipped: the fold receives every line item of every fetched bill. |
| Reports.CustomTakesBillsInRange | client/src/pages/ReportsPage.js:97-104 | In the date-range mode the fold receives exactly the line items of the bills created neither before the start nor after the end. Both ends are inclusive. |
| Reports.ItemTakesMatchingLines | client/src/pages/ReportsPage.js:106-108 | In the item mode the fold receives exactly the line items named after the item, from bills of any date. |
| Reports.Tabulate | client/src/pages/ReportsPage.js:110-122 | The reference report has one row per distinct name, in order of first appearance. Each row's quantity and takings are the sums of `quantity` and `price * quantity` over that name's line items. Across all rows these sums equal the line items' totals. |
| Reports.TotalOfMatching | client/src/pages/ReportsPage.js:106-114 | Dropping the line items of other names does not change a name's totals. |
| Reports.TabulateConserves | client/src/pages/ReportsPage.js:110-122 | Conservation: the rows' quantities add up to the total quantity of the line items, and the rows' takings to their total `price * quantity`. |
| Reports.OneRowPerName | client/src/pages/ReportsPage.js:110-122 | No name has two rows. Every line item's name has a row. Every row's name is that of some line item. |
| Reports.TabulateEmpty | client/src/pages/ReportsPage.js:90-125 | No line items, no rows. |
| Reports.Record | client/src/pages/ReportsPage.js:110-114 | A new name is appended to the keys with a zero entry before the line is added; a known name keeps the keys. The name's quantity grows by the line's quantity and its takings by `price * quantity`. Every other name's entry is unchanged, and no other name appears or disappears. |
| Reports.RecordLine | client/src/pages/ReportsPage.js:110-114 | Creating a missing entry at zero and then adding the line's quantity and `price * quantity` keeps the accumulator equal to the per-name totals of the lines seen so far. The keys stay the distinct names in first-seen order. |
| Reports.CartStep | client/src/pages/ReportsPage.js:106-115 | One step of the inner loop keeps the accumulator in step with the line items the selection keeps. |
| Reports.AccumulateBill | client/src/pages/ReportsPage.js:93-116 | After one bill the accumulator holds the totals of the earlier lines plus this bill's contribution. The contribution is nothing for a bill outside the date range, and only the matching lines in the item mode. |
| Reports.EntriesAreTheReport | client/src/pages/ReportsPage.js:118-122 | Every key has an entry, and listing the entries in key order gives the reference report: one row per distinct name, in first-seen order, with that name's quantity and takings. |
| Reports.ProcessReportData | client/src/pages/ReportsPage.js:90-125 | The page's loop returns exactly the reference report (`Reports.Tabulate`) of the line items the selection keeps, so the properties of the reference report hold of it. No bills give no rows. |
| Reports.TotalIgnoresOrder | client/src/pages/ReportsPage.js:110-114 | A name's totals do not depend on the order of the line items. |
| Reports.TabulateIgnoresOrder | client/src/pages/ReportsPage.js:110-122 | Line items with the same multiset give reports with the same multiset of rows. |
| Reports.SurvivorsIgnoresOrder | client/src/pages/ReportsPage.js:93-108 | Bills with the same multiset give accumulator inputs with the same multiset of line items. |
| Reports.ReportIgnoresBillOrder | client/src/pages/ReportsPage.js:90-125 | The order in which the store returns the bills changes at most the order of the report's rows, never their contents. |
| Reports.GenerateReport | client/src/pages/ReportsPage.js:51-88 | An invalid selection gives its error and no report. A valid one gives the fold of the fetched bills under that selection. |
| Reports.TabulateOneName | client/src/pages/ReportsPage.js:106-122 | Keeping only one name's line items leaves a single row with that name's totals, or no row when no line item has that name. |
| Reports.ItemReportIsOneAllTimeRow | client/src/pages/ReportsPage.js:106-108 | An item report is the single row of that item's totals over all bills of any date. It is empty when no bill sold the item. |
| Reports.InvertedRangeIsEmpty | client/src/pages/ReportsPage.js:97-104 | The range is not checked to be in order: a range whose end precedes its start selects nothing. |
| Reports.DailyReportCountsEarlierDays | client/src/pages/ReportsPage.js:57-59 | As written: with Tea sold twice today and five times yesterday, the "Today's Sales" report shows 7 units for 140. |
| Reports.IntendedSelector | client/src/pages/ReportsPage.js:57-59 | Corrected selection: the daily mode always succeeds and selects the bills created between today's first and last instant. The other modes give the same selection or error as before. |
| Reports.IntendedDailyTakesOnlyToday | client/src/pages/ReportsPage.js:57-59 | With the corrected selection, a daily report takes exactly the line items of bills created today. Every counted line item comes from such a bill. |
| Reports.GenerateIntendedReport | client/src/pages/ReportsPage.js:51-88 | Generation with the corrected selection: the same errors; a daily report over today's bills only; the other modes as before. |
| Reports.IntendedDailyReportExample | client/src/pages/ReportsPage.js:57-59 | Corrected: the same bills give today's 2 units for 40. |
| Reports.PrintReport | client/src/pages/ReportsPage.js:141-177 | Printing succeeds exactly when there are rows and, in the date-range mode, the picker holds two days. With no rows it is refused, since the button is disabled. It prints the rows in order, the mode's label, the date line only in the date-range mode and the item line only in the item mode. An empty item select prints "null". |
| Invoice.SubtotalSplits | client/src/pages/CartPage.js:87-92 | The subtotal of two carts joined is the sum of their subtotals. An empty cart's subtotal is 0. |
| Invoice.Subtotal | client/src/pages/CartPage.js:88-91 | An empty cart's subtotal is 0. With no negative price or quantity the subtotal is not negative. |
| Invoice.SubtotalIgnoresOrder | client/src/pages/CartPage.js:88-91 | Reordering the cart does not change the subtotal. |
| Invoice.Increment | client/src/pages/CartPage.js:21-25 | The "+" payload is the same item with exactly one more unit. |
| Invoice.Decrement | client/src/pages/CartPage.js:28-35 | The "-" payload exists exactly when the quantity is not 1. It is then the same item with exactly one unit fewer. |
| Invoice.QuantityStaysPositive | client/src/pages/CartPage.js:21-35 | From a quantity of at least 1, neither button leads below 1. |
| Invoice.IncrementDecrementInverse | client/src/pages/CartPage.js:21-35 | "-" undoes "+", and "+" undoes a dispatched "-". |
| Invoice.CreateInvoice | client/src/pages/CartPage.js:97-110 | The bill carries the cart, the customer, the phone and the payment method. Its tax is subtotal × percentage / 100 and its total is subtotal + tax. Its `date` and `createdAt` are both the moment the store saves it. |
| Invoice.InvoiceAmountsOrdered | client/src/pages/CartPage.js:99-100 | With a percentage in [0, 100] and no negative price or quantity: 0 ≤ tax ≤ subtotal ≤ total. |
| Invoice.EmptyCartMakesZeroBill | client/src/pages/CartPage.js:88-100 | An empty cart is not refused. It gives a bill with tax and total 0. |
| Invoice.PrintBill | client/src/pages/CartPage.js:125-176 | The printed invoice shows the bill's customer, phone, date and payment method. It has one row per cart line, in cart order, with name, unit price, quantity and extended price `price * quantity`. Its Tax and Total rows are the bill's tax and total, and its Subtotal row is the total minus the tax, so Subtotal plus Tax equals Total. |
| Invoice.PrintedLinesAddUp | client/src/pages/CartPage.js:150-161 | The printed rows' extended prices add up to the cart's subtotal. |
| Invoice.PrintedSubtotalMatchesCart | client/src/pages/CartPage.js:162-165 | For a bill created from a cart, the printed Subtotal (total minus tax) equals the cart's subtotal. |
| Invoice.TeaAndCakeExample | client/src/pages/CartPage.js:99-100 | Tea 20 × 3 and Cake 150 × 1 at 10% give subtotal 210, tax 21 and total 231. |
| Catalog.Categories | client/src/pages/ItemPage.js:29 | The category list has no duplicates and holds every item's category and nothing else. Its entries come in order of first occurrence. |
| Catalog.AddItem | client/src/pages/ItemPage.js:83-101 | A name already in the list leaves the list unchanged. Otherwise exactly one item is appended at the end, with no `_id` yet. It carries the form's name, price and image, and the selected category or, when none is selected, the typed one. |
| Catalog.AddKeepsNamesUnique | client/src/pages/ItemPage.js:93-101 | Adding keeps item names unique. Afterwards the form's name is in the list. |
| Catalog.EditedItem | client/src/pages/ItemPage.js:118-124 | The edited record keeps the selected item's `_id` and takes the form's name, price, image and category. |
| Catalog.UpdateItem | client/src/pages/ItemPage.js:134-138 | The list keeps its length. Every item with the selected `_id` is replaced by the edited record, and every other item stays in place. |
| Catalog.UpdateKeepsIds | client/src/pages/ItemPage.js:118-138 | Replacing by an edit of the selected item leaves the list of `_id`s unchanged. |
| Catalog.UpdateChangesOneSlot | client/src/pages/ItemPage.js:134-138 | With unique `_id`s, an update writes the single slot holding the selected `_id`. |
| Catalog.DeleteItem | client/src/pages/ItemPage.js:145-148 | Exactly the items whose `_id` differs from the deleted record's remain, each with all its occurrences, in their original order. |
| Catalog.DeleteIdempotent | client/src/pages/ItemPage.js:148 | Deleting the same record twice equals deleting it once. |
| Storefront.CategoryButtons | client/src/pages/Homepage.js:17-20 | "all" comes first. It is followed by exactly the item page's category list: the items' distinct categories, each an item's category, every item's category among them, in order of first occurrence. |
| Storefront.FilteredItems | client/src/pages/Homepage.js:34-37 | "all" shows the whole list. Any other category shows exactly that category's items, each with all its occurrences, in their original order. |
| Storefront.FilterTwiceIsFilterOnce | client/src/pages/Homepage.js:34-37 | Selecting a category twice shows the same items as selecting it once. |
| Storefront.EveryItemHasAButton | client/src/pages/Homepage.js:17-37 | Every item's category has a button, and the item is shown under it. |

## Left out

- **I/O and page plumbing.** The HTTP calls, React state and effects, the UI
  components, toasts and print windows are left out. A store call is assumed
  to succeed. When a call fails, the page logs the error and keeps its state.
  Printed documents are structured values, not HTML.
- **The store.** The stored bill's `date` and `createdAt` are a parameter of
  `Invoice.CreateInvoice`. The constant `userId` placeholder that the cart
  page sends with every bill is not a field of `Records.Bill`, since nothing
  reads it. The fetched bills are a parameter of the report
  methods, in whatever order the store returns them (newest first).
- **The cart reducer.** The handlers of `UPDATE_QUANTITY`, `DELETE_ITEM_CART`
  and `CLEAR_CART` are not part of this model. Only the payloads the cart page
  builds are modelled. The delete button's payload is the record itself and
  needs no model.
- **Floating point and `toFixed(2)`.** Amounts are exact integers and reals.
  Rounding and float accumulation error are not modelled.
- **Time zones and day boundaries.** The start and end of a picked day are
  inputs (`Reports.Day`).
- **Key order.** JavaScript lists integer-like object keys before the others.
  The model lists report rows in first-seen name order. It also does not
  model names that collide with built-in object properties.
- **Input bounds.** `Invoice.InvoiceAmountsOrdered` assumes a percentage in
  [0, 100]. The tax field only hints at these bounds to the browser, so the
  page itself does not enforce them.
- **Stale category list.** The item page's category list is computed once,
  when the items load, and categories added later are not reflected. Only the
  computation (`Catalog.Categories`) is modelled.
- **Bill routes.** The bill routes' own date-range query is not part of this
  model, because the pages never call it.
- **Dashboard.** The dashboard page is not part of this model. It only
  fetches and displays.
- **Printing after a mode switch.** `Reports.PrintReport` prints the rows
  passed to it with the current selection. It does not track that the rows
  may have been generated under an earlier selection.
- **Missing checks.** The code does not check for an empty cart before
  creating a bill, or whether a date range is in order. It does not check for
  zero or negative prices and quantities either. The model therefore accepts
  all of these, as `Invoice.EmptyCartMakesZeroBill` and
  `Reports.InvertedRangeIsEmpty` state. Where a property needs non-negative
  amounts, the lemma says so in its precondition.

## Findings

| source | as written | input that shows it | evidently intended | confidence | as-written member | corrected member |
|---|---|---|---|---|---|---|
| client/src/pages/ReportsPage.js:57-59 | The "Today's Sales" report sends today's bounds as query parameters. The "get all bills" route ignores them (routes/billRoutes.js:18, controllers/billController.js:27), and the fold filters dates only in the date-range mode, so every stored bill is counted. | Tea at 20: 2 sold in a bill created today, 5 in a bill created yesterday. The daily report shows Tea 7 for 140. | Count only the bills created today: Tea 2 for 40, as a date-range report for today does. | not executed | Reports.DailyReportCountsEarlierDays | Reports.IntendedSelector |

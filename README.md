# Finance dashboard store, modelled in Dafny

This project models the state core of a small-business finance dashboard. The core is the
finance store (`FinanceProvider` in `context/finance-context.tsx`). It holds invoices, tax
filings, bills, a monthly sales series, a monthly customer-satisfaction series, two display
series, the headline metrics and a loading flag. Around it sit two of the pages that drive
it: the bills page and the taxes page. Each of those has a form that adds a record and a
button that changes a record's status.

The store is modelled as a class, `FinanceContext.FinanceStore`. It has one field per
`useState` slot, and each operation is a method that assigns those fields the way the
source's setters do. Every operation reads one snapshot of the state taken when it starts,
so when an operation sets the same field twice the later value wins. This matters in
three places:

- A paid `addInvoice` counts one more order and credits the month's sales entry. Its last
  `setMetrics` then overwrites the payment rule's revenue, profit and completed-count
  credit, so those stay unchanged.
- `uploadFinancialData` replaces the invoice payment rule's metrics with the invoice
  counters. A positive paid-bill total then replaces those counters with the expense rule.
- An uploaded sales series replaces the payment rule's sales credit from the same upload.

In the first two cases the operation names and their `// Update metrics` comments suggest
that the paid invoices' revenue is credited. In the third, the comment (`// Update sales data
if provided`) suggests that the uploaded series adds to the month's sales credit rather than
replacing it. The model follows what the code does.

For each operation `X`, a function `XSpec` gives its net effect on a `StoreState` value.
Each method's postcondition states that the new `State()` equals `XSpec` of the old one.
The properties are proved as lemmas about the `XSpec` functions in `FinanceProperties`:

- identifier format and uniqueness;
- which operations touch metrics, and by how much;
- paying twice applies the rule only once;
- the effect of the upload branches and their defaults;
- the contents of the series merges;
- the whole-history invariants `profit == totalRevenue - expenses` and
  "invoice, bill and tax filing ids stay distinct without uploads".

Two concrete scenarios on the seed data are proved as lemmas: adding a paid 60.00 "Gas"
bill, and paying INV-002.

The margin is computed as `(profit / revenue) * 100` in JavaScript, which never fails on a
zero divisor. It is modelled by the datatype `Ratio`: a finite real, `PositiveInfinity`,
`NegativeInfinity` or `NotANumber`. No operation needs a precondition on revenue.

Inputs the source reads from outside are parameters:

- The current month (`toLocaleString` "short" month) is an explicit `month` argument.
- The current year is `year`.
- Today's and the in-15-days date strings, and the random draws of the upload defaults
  (one per batch position, each bounded like `Math.floor(Math.random() * k)`), are fields
  of `FinancialUploadEnv` and `TaxUploadEnv`.
- The page forms take the result of `Number.parseFloat` as `parsedAmount`.

An upload payload is `Option<...>`, and its optional fields model JavaScript falsiness:

- `None` is a payload that is `null` (its first field access throws, so the handler only
  clears the loading flag) or a field that is absent or not an array.
- `""` is a missing string field.
- `0.0` is a missing amount or satisfaction.
- A `None` status is a missing status.

Amounts are mathematical reals.

## Model

| member | source | states |
|---|---|---|
| Ids.Decimal | context/finance-context.tsx:295 | `String(n)` of a non-negative counter is a non-empty string of decimal digits, one digit exactly when n < 10, with no leading zero for n > 0 |
| Ids.ZeroPad | context/finance-context.tsx:295 | `padStart(w, "0")` has length max(len, w), ends with the original string and has only '0' before it; it never truncates |
| Ids.PadNumber | context/finance-context.tsx:295 | `String(n).padStart(w, "0")`; `PadNumberValue` and `PadNumberInjective` state that it reads back as n and is injective |
| Ids.ValueOfDecimal | context/finance-context.tsx:295 | reading the decimal rendering back gives the counter |
| Ids.PadNumberValue | context/finance-context.tsx:295 | a zero-padded counter is all digits and reads back as the counter |
| Ids.PrefixedPadInjective | context/finance-context.tsx:316 | two identifiers with one prefix and a padded counter are equal only for equal counters |
| Ids.PadNumberInjective | context/finance-context.tsx:295 | two counters with equal padded renderings are equal |
| Ids.DashBeforeDigits | context/finance-context.tsx:307 | in a string `head-digits` the last '-' sits just before the digit tail |
| Ids.DigitTailsAgree | context/finance-context.tsx:307 | two equal strings `p-a`, `q-b` with digit tails `a`, `b` have equal tails, whatever their heads |
| FinanceContext.Percent | context/finance-context.tsx:403 | the JavaScript margin quotient is finite exactly when the divisor is non-zero (and then it is numerator*100/divisor); otherwise it is +Infinity, -Infinity or NaN by the numerator's sign |
| FinanceContext.SeedInvoices | context/finance-context.tsx:74-115 | the five seed invoices; `SeedIdsSequential` states that their ids are INV-001..INV-005 by position and `SeedPayInvoice002` uses INV-002 |
| FinanceContext.SeedTaxFilings | context/finance-context.tsx:117-142 | the three seed filings; `SeedTaxFilingIdsEndOtherwise` and `TaxFilingIdNotSeed` state that their ids never clash with generated ones |
| FinanceContext.SeedBills | context/finance-context.tsx:144-185 | the five seed bills; `SeedIdsSequential` states that their ids are BILL-001..BILL-005 by position and `SeedAddPaidGasBill` that the next one is BILL-006 |
| FinanceContext.SeedSalesData | context/finance-context.tsx:187-200 | the twelve monthly sales entries; `SeedPayInvoice002` states the month credit applied to them |
| FinanceContext.SeedCustomerSatisfaction | context/finance-context.tsx:202-215 | the seed satisfaction series; `UploadFinancialDataSales` states when an upload merges into it |
| FinanceContext.SeedTargetVsReality | context/finance-context.tsx:217-224 | a display series no operation changes; `UploadFinancialDataSales` and `UploadTaxDataEffect` state that the uploads keep it |
| FinanceContext.SeedVisitorData | context/finance-context.tsx:226-233 | a display series no operation changes; `UploadFinancialDataSales` and `UploadTaxDataEffect` state that the uploads keep it |
| FinanceContext.SeedMetrics | context/finance-context.tsx:235-244 | the seed metrics; `SeedProfitIdentity` states that they satisfy the profit identity and `SeedMarginIsRounded` that the margin 72.7 is rounded |
| FinanceContext.Seed | context/finance-context.tsx:248-256 | the initial `useState` values; `FinanceStore.constructor` starts on it, and `SeedHistoryProfitIdentity` and `SeedHistoryIdsDistinct` state what every history from it keeps |
| FinanceContext.InvoiceId | context/finance-context.tsx:295 | the `INV-` template; `InvoiceIdFormat` and `InvoiceIdInjective` state its format and injectivity |
| FinanceContext.BillId | context/finance-context.tsx:316 | the `BILL-` template; `BillIdFormat` and `BillIdInjective` state its format and injectivity |
| FinanceContext.TaxFilingId | context/finance-context.tsx:307 | the `TX-<year>-` template; `TaxFilingIdFormat`, `TaxFilingIdInjective` and `TaxFilingIdNotSeed` state its format, its injectivity across years and its distance from the seed ids |
| FinanceContext.UploadId | context/finance-context.tsx:429 | the `*-UPLOAD-` templates at lines 429, 473 and 501; `UploadIdFormat` and `UploadIdsDiffer` state its format and injectivity within a batch |
| FinanceContext.InvoicesWithStatus | context/finance-context.tsx:484 | the `filter` on one status; `UploadFinancialDataMetrics` states that the paid uploaded invoices it selects raise the completed count |
| FinanceContext.InvoiceAmountTotal | context/finance-context.tsx:485 | the `reduce` summing amounts; `UploadFinancialDataSales` states that a positive paid total credits the month's sales |
| FinanceContext.BillsWithStatus | app/dashboard/bills/page.tsx:40-46 | the `filter` on one status (also context/finance-context.tsx:512); `BucketsPartitionTotal` states that the three status filters split the total |
| FinanceContext.BillAmountTotal | app/dashboard/bills/page.tsx:39 | the `reduce` summing amounts (also context/finance-context.tsx:513); `BillAmountTotalAppend` states that it adds over concatenation |
| FinanceContext.InvoicePaymentFires | context/finance-context.tsx:343-344 | the guard `invoice && status === "paid" && invoice.status !== "paid"` on the first match; `UpdateInvoiceStatusPayment` states that metrics change exactly when it holds |
| FinanceContext.FoundInvoiceAmount | context/finance-context.tsx:343-345 | the amount of the first invoice with the id; `UpdateInvoiceStatusPayment` states that the payment rule credits it |
| FinanceContext.BillExpenseFires | context/finance-context.tsx:373-374 | the guard `bill && status === "paid" && bill.status !== "paid"` on the first match; `UpdateBillStatusExpense` states that the expense rule fires exactly when it holds |
| FinanceContext.FoundBillAmount | context/finance-context.tsx:373-380 | the amount of the first bill with the id; `UpdateBillStatusExpense` states that the expense rule charges it |
| FinanceContext.OrString | context/finance-context.tsx:430-432 | a string field, or its default when the field is falsy (also lines 474-476 and 502-504); the `*BatchDefaults` lemmas state each field it yields |
| FinanceContext.OrAmount | context/finance-context.tsx:433 | an amount, or the random default when it is falsy (also lines 477 and 505); the `*BatchDefaults` lemmas state it |
| FinanceContext.DefaultPeriod | context/finance-context.tsx:431 | the random `Q<1..4> <year>` default period; `TaxFilingBatchDefaults` states it |
| FinanceContext.FirstIndexOf | context/finance-context.tsx:343 | `find`/`findIndex`: the first position holding the key, and -1 exactly when the key is absent |
| FinanceContext.SetInvoiceStatus | context/finance-context.tsx:333-340 | the `map` of `updateInvoiceStatus`; `SetInvoiceStatusShape` states that it keeps length, ids and the other fields and sets the status of exactly the invoices with the id |
| FinanceContext.SetTaxFilingStatus | context/finance-context.tsx:351-358 | the `map` of `updateTaxFilingStatus`; `SetTaxFilingStatusShape` states the same for filings |
| FinanceContext.SetBillStatus | context/finance-context.tsx:363-370 | the `map` of `updateBillStatus`; `SetBillStatusShape` states the same for bills |
| FinanceContext.CreditMonth | context/finance-context.tsx:408-416 | the sales `map` of `updateMetricsAfterPayment`; `CreditMonthEffect` states that every entry with the month gains the amount and labels are kept |
| FinanceContext.CreditFirstMonth | context/finance-context.tsx:529-535 | one step of the upload's sales `forEach` keeps the series length and every month label; `MergeSalesAt` states its effect on the first entry of the month |
| FinanceContext.MergeSales | context/finance-context.tsx:529-535 | the upload's sales merge keeps the series length and every month label in place; `MergeSalesAt` and `MergeSalesIgnoresUnmatched` state its contents, and `MergeSalesInto` is proved equal to it |
| FinanceContext.AverageFirstMonth | context/finance-context.tsx:543-549 | one step of the upload's satisfaction `forEach` keeps the series length and every month label; `MergeSatisfactionAt` states its effect |
| FinanceContext.MergeSatisfaction | context/finance-context.tsx:543-549 | the upload's satisfaction merge keeps the series length and every month label in place; `MergeSatisfactionAt` and `MergeSatisfactionIgnoresUnmatched` state its contents, and `MergeSatisfactionInto` is proved equal to it |
| FinanceContext.UploadedTaxFiling | context/finance-context.tsx:429-434 | one uploaded filing with its `||` defaults; `TaxFilingBatchDefaults` states each field |
| FinanceContext.TaxFilingBatch | context/finance-context.tsx:428-435 | the uploaded filing batch; `TaxFilingBatchDefaults` states its length, its `TX-UPLOAD-###` ids (pairwise distinct) and each element's defaults |
| FinanceContext.UploadedInvoice | context/finance-context.tsx:473-478 | one uploaded invoice with its `||` defaults; `InvoiceBatchDefaults` states each field |
| FinanceContext.InvoiceBatch | context/finance-context.tsx:472-479 | the uploaded invoice batch; `InvoiceBatchDefaults` states its length, its `INV-UPLOAD-###` ids (pairwise distinct) and each element's defaults |
| FinanceContext.UploadedBill | context/finance-context.tsx:501-506 | one uploaded bill with its `||` defaults; `BillBatchDefaults` states each field |
| FinanceContext.BillBatch | context/finance-context.tsx:500-507 | the uploaded bill batch; `BillBatchDefaults` states its length, its `BILL-UPLOAD-###` ids (pairwise distinct) and each element's defaults |
| FinanceContext.UploadPaidInvoiceTotal | context/finance-context.tsx:484-485 | the paid uploaded invoices' amount total; `UploadFinancialDataSales` states that a positive one credits the month's sales when no series is uploaded |
| FinanceContext.UploadPaidBillTotal | context/finance-context.tsx:512-513 | the paid uploaded bills' amount total; `UploadFinancialDataMetrics` states that a positive one leaves exactly the expense rule |
| FinanceContext.AddInvoiceSpec | context/finance-context.tsx:292-301 | the net effect of `addInvoice`; `AddInvoiceAppendsOne` states it and `FinanceStore.AddInvoice` is proved to produce it |
| FinanceContext.AddTaxFilingSpec | context/finance-context.tsx:304-310 | the net effect of `addTaxFiling`; `AddTaxFilingAppendsOne` states it and `FinanceStore.AddTaxFiling` is proved to produce it |
| FinanceContext.AddBillSpec | context/finance-context.tsx:313-329 | the net effect of `addBill`; `AddBillAppendsOne` states it and `FinanceStore.AddBill` is proved to produce it |
| FinanceContext.UpdateInvoiceStatusSpec | context/finance-context.tsx:332-347 | the net effect of `updateInvoiceStatus`; `UpdateInvoiceStatusPayment`, `UpdateInvoiceStatusAbsentId` and `PayInvoiceTwiceAppliesOnce` state it, and `FinanceStore.UpdateInvoiceStatus` is proved to produce it |
| FinanceContext.UpdateTaxFilingStatusSpec | context/finance-context.tsx:350-359 | the net effect of `updateTaxFilingStatus`; `UpdateTaxFilingStatusOnlyFilings` and `UpdateTaxFilingStatusAbsentId` state it, and `FinanceStore.UpdateTaxFilingStatus` is proved to produce it |
| FinanceContext.UpdateBillStatusSpec | context/finance-context.tsx:362-382 | the net effect of `updateBillStatus`; `UpdateBillStatusExpense`, `UpdateBillStatusAbsentId` and `PayBillTwiceAppliesOnce` state it, and `FinanceStore.UpdateBillStatus` is proved to produce it |
| FinanceContext.UploadTaxDataSpec | context/finance-context.tsx:420-461 | the net effect of `uploadTaxData`; `UploadTaxDataEffect` states it and `FinanceStore.UploadTaxData` is proved to produce it |
| FinanceContext.UploadFinancialDataSpec | context/finance-context.tsx:464-560 | the net effect of `uploadFinancialData`; `UploadFinancialDataMetrics`, `UploadFinancialDataSales` and `RepeatedUploadRepeatsIds` state it, and `FinanceStore.UploadFinancialData` is proved to produce it |
| FinanceContext.PaymentMetrics | context/finance-context.tsx:397-406 | the payment rule leaves a margin equal to the new profit over the new revenue, and keeps `profit == totalRevenue - expenses` |
| FinanceContext.ExpenseMetrics | context/finance-context.tsx:320-327 | the expense rule leaves a margin equal to the new profit over the unchanged revenue, and keeps `profit == totalRevenue - expenses` |
| FinanceContext.MergeSalesInto | context/finance-context.tsx:526-537 | the in-place `forEach` over uploaded sales items leaves the array equal to the ordered fold of first-month credits |
| FinanceContext.MergeSatisfactionInto | context/finance-context.tsx:540-552 | the in-place `forEach` over uploaded satisfaction items leaves the array equal to the ordered fold of first-month averages of truthy values |
| FinanceContext.FinanceStore.constructor | context/finance-context.tsx:248-256 | the store starts on the seed data with the loading flag off |
| FinanceContext.FinanceStore.UpdateMetricsAfterPayment | context/finance-context.tsx:397-417 | replaces metrics by the payment rule and the sales series by the month credit, both computed from the caller's snapshot; nothing else changes |
| FinanceContext.FinanceStore.UpdateMetricsAfterInvoice | context/finance-context.tsx:385-394 | metrics end as the snapshot's with one more order, and the payment rule's sales credit survives only for a paid invoice |
| FinanceContext.FinanceStore.AddInvoice | context/finance-context.tsx:292-301 | the new state is `AddInvoiceSpec` of the old one |
| FinanceContext.FinanceStore.AddTaxFiling | context/finance-context.tsx:304-310 | the new state is `AddTaxFilingSpec` of the old one |
| FinanceContext.FinanceStore.AddBill | context/finance-context.tsx:313-329 | the new state is `AddBillSpec` of the old one |
| FinanceContext.FinanceStore.UpdateInvoiceStatus | context/finance-context.tsx:332-347 | the new state is `UpdateInvoiceStatusSpec` of the old one |
| FinanceContext.FinanceStore.UpdateTaxFilingStatus | context/finance-context.tsx:350-359 | the new state is `UpdateTaxFilingStatusSpec` of the old one |
| FinanceContext.FinanceStore.UpdateBillStatus | context/finance-context.tsx:362-382 | the new state is `UpdateBillStatusSpec` of the old one |
| FinanceContext.FinanceStore.UploadTaxData | context/finance-context.tsx:420-461 | the new state is `UploadTaxDataSpec` of the old one and the loading flag ends off |
| FinanceContext.FinanceStore.UploadInvoiceBatch | context/finance-context.tsx:471-497 | appends the invoice batch to the snapshot's invoices, sets the counters from the snapshot and keeps the payment rule's sales credit |
| FinanceContext.FinanceStore.UploadBillBatch | context/finance-context.tsx:499-524 | appends the bill batch to the snapshot's bills and applies the expense rule to a positive paid total |
| FinanceContext.FinanceStore.UploadSalesSeries | context/finance-context.tsx:526-538 | sets the sales series to the merge of the uploaded items into a copy of the snapshot's series |
| FinanceContext.FinanceStore.UploadSatisfactionSeries | context/finance-context.tsx:540-553 | sets the satisfaction series to the merge of the uploaded items into a copy of the snapshot's series |
| FinanceContext.FinanceStore.UploadFinancialData | context/finance-context.tsx:464-560 | the new state is `UploadFinancialDataSpec` of the old one and the loading flag ends off |
| FinanceProperties.InvoiceIdFormat | context/finance-context.tsx:295 | an invoice id is `INV-` followed by the counter padded to at least three digits, and it reads back as the counter |
| FinanceProperties.BillIdFormat | context/finance-context.tsx:316 | a bill id is `BILL-` followed by the counter padded to at least three digits, and it reads back as the counter |
| FinanceProperties.TaxFilingIdFormat | context/finance-context.tsx:307 | a filing id is `TX-<year>-` followed by the counter padded to at least two digits, and it reads back as the counter |
| FinanceProperties.UploadIdFormat | context/finance-context.tsx:429 | an upload id is its prefix followed by the 1-based batch position padded to at least three digits |
| FinanceProperties.InvoiceIdInjective | context/finance-context.tsx:295 | different counters give different invoice ids |
| FinanceProperties.BillIdInjective | context/finance-context.tsx:316 | different counters give different bill ids |
| FinanceProperties.TaxFilingIdInjective | context/finance-context.tsx:307 | different counters give different filing ids, even with different years |
| FinanceProperties.TaxFilingIdEndsInDigits | context/finance-context.tsx:307 | a generated filing id ends in at least two digits |
| FinanceProperties.SeedTaxFilingIdsEndOtherwise | context/finance-context.tsx:117-142 | each seed filing id has a letter or a '-' in its next-to-last place |
| FinanceProperties.TaxFilingIdNotSeed | context/finance-context.tsx:307 | no generated filing id equals a seed filing id |
| FinanceProperties.AddInvoiceAppendsOne | context/finance-context.tsx:292-301 | `addInvoice` appends one invoice numbered after the old count and keeps the earlier ones; metrics only count one more order; a paid invoice credits the month's sales; nothing else changes |
| FinanceProperties.AddBillAppendsOne | context/finance-context.tsx:313-329 | `addBill` appends one bill numbered after the old count; metrics change by the expense rule exactly when the bill is paid; nothing else changes |
| FinanceProperties.AddTaxFilingAppendsOne | context/finance-context.tsx:304-310 | `addTaxFiling` appends one filing with the year and count in its id and changes nothing else, metrics included |
| FinanceProperties.SetInvoiceStatusShape | context/finance-context.tsx:333-340 | the status map keeps length, ids and every other field, and sets the status of exactly the invoices with that id |
| FinanceProperties.SetBillStatusShape | context/finance-context.tsx:363-370 | the status map keeps length, ids and every other field, and sets the status of exactly the bills with that id |
| FinanceProperties.SetTaxFilingStatusShape | context/finance-context.tsx:351-358 | the status map keeps length, ids and every other field, and sets the status of exactly the filings with that id |
| FinanceProperties.UpdateInvoiceStatusAbsentId | context/finance-context.tsx:332-347 | an id no invoice carries leaves the whole state unchanged |
| FinanceProperties.UpdateBillStatusAbsentId | context/finance-context.tsx:362-382 | an id no bill carries leaves the whole state unchanged |
| FinanceProperties.UpdateTaxFilingStatusAbsentId | context/finance-context.tsx:350-359 | an id no filing carries leaves the whole state unchanged |
| FinanceProperties.UpdateTaxFilingStatusOnlyFilings | context/finance-context.tsx:350-359 | a filing status change touches only the filing list, never metrics |
| FinanceProperties.CreditMonthEffect | context/finance-context.tsx:408-416 | the month credit adds the amount to every entry with that month label and keeps all labels and other totals |
| FinanceProperties.UpdateInvoiceStatusPayment | context/finance-context.tsx:332-347 | the invoices become the status map of the id; metrics change if and only if the first invoice with the id moves from not paid to paid, and then sales, revenue and profit rise by its amount, completed by one, the margin is recomputed and the month's sales gain the amount; nothing else in the store changes |
| FinanceProperties.PayInvoiceTwiceAppliesOnce | context/finance-context.tsx:342-346 | a second "paid" update after a first one changes nothing |
| FinanceProperties.PayBillTwiceAppliesOnce | context/finance-context.tsx:372-381 | a second "paid" update of a bill records no second expense and changes nothing |
| FinanceProperties.UpdateBillStatusExpense | context/finance-context.tsx:372-381 | revenue never moves; an expense of the first matching bill's amount is recorded exactly when it moves to paid, otherwise metrics stay |
| FinanceProperties.TaxFilingBatchDefaults | context/finance-context.tsx:428-435 | each uploaded filing takes its supplied fields or the defaults ("Income Tax", a random quarter of the year, today, a whole amount in [1000, 6000), pending), and batch ids are pairwise distinct |
| FinanceProperties.InvoiceBatchDefaults | context/finance-context.tsx:472-479 | each uploaded invoice takes its supplied fields or the defaults ("New Client", today, in 15 days, a whole amount in [500, 5500), pending), and batch ids are pairwise distinct |
| FinanceProperties.BillBatchDefaults | context/finance-context.tsx:500-507 | each uploaded bill takes its supplied fields or the defaults ("New Bill", "Utilities", in 15 days, a whole amount in [50, 550), pending), and batch ids are pairwise distinct |
| FinanceProperties.UploadIdsDiffer | context/finance-context.tsx:429 | two batch positions give two different upload ids |
| FinanceProperties.UploadTaxDataEffect | context/finance-context.tsx:420-461 | the tax upload appends its batch after the existing filings, applies the expense rule exactly when `totalTaxes` is truthy, changes nothing else and ends with loading off |
| FinanceProperties.UploadFinancialDataMetrics | context/finance-context.tsx:484-521 | the financial upload never changes revenue or sales totals; a positive paid-bill total leaves exactly the expense rule, with orders, completed and new customers kept; otherwise an invoices array adds its length to the order count and its paid invoices to the completed count and changes no other metric; with neither, metrics stay |
| FinanceProperties.UploadFinancialDataSales | context/finance-context.tsx:464-560 | batches are appended after the existing records and an absent array leaves its list as it was; an uploaded sales series replaces the payment credit, otherwise a positive paid-invoice total credits the month and a non-positive one leaves the series; an uploaded satisfaction series is merged in, otherwise it stays; tax filings and the display series never change; a null payload only clears loading |
| FinanceProperties.RepeatedUploadRepeatsIds | context/finance-context.tsx:471-481 | uploading the same non-empty invoice batch twice gives two invoices with one id |
| FinanceProperties.MergeSalesAt | context/finance-context.tsx:526-537 | after the sales merge the first entry of each month holds its old total plus every uploaded total for that month, and other entries are untouched |
| FinanceProperties.MergeSalesIgnoresUnmatched | context/finance-context.tsx:530-533 | an uploaded month that no entry carries changes nothing |
| FinanceProperties.MergeSatisfactionAt | context/finance-context.tsx:540-552 | after the satisfaction merge the first entry of each month holds its old value averaged in turn with each truthy uploaded value for that month, and other entries are untouched |
| FinanceProperties.MergeSatisfactionIgnoresUnmatched | context/finance-context.tsx:544-548 | an item whose month is unknown or whose value is falsy changes nothing |
| FinanceProperties.SeedProfitIdentity | context/finance-context.tsx:235-244 | the seed metrics satisfy `profit == totalRevenue - expenses` |
| FinanceProperties.SeedMarginIsRounded | context/finance-context.tsx:235-244 | the seed margin 72.7 is finite but not the exact margin of the seed profit over the seed revenue |
| FinanceProperties.StepKeepsProfitIdentity | context/finance-context.tsx:292-560 | every store operation keeps `profit == totalRevenue - expenses` |
| FinanceProperties.StepMarginConsistent | context/finance-context.tsx:292-560 | after an operation that changes profit or revenue, the stored margin is the margin of the new profit over the new revenue |
| FinanceProperties.RunKeepsProfitIdentity | context/finance-context.tsx:292-560 | any sequence of operations keeps the profit identity |
| FinanceProperties.SeedHistoryProfitIdentity | context/finance-context.tsx:235-244 | every history of operations from the seed keeps the profit identity |
| FinanceProperties.PaidBillAtZeroRevenue | context/finance-context.tsx:326 | with zero revenue, a paid bill leaves an infinite margin or NaN by the sign of the new profit |
| FinanceProperties.SequentialIdsDistinct | context/finance-context.tsx:295 | invoices and bills numbered 1, 2, ... by position have pairwise distinct ids |
| FinanceProperties.StepKeepsSequentialIds | context/finance-context.tsx:292-382 | every non-upload operation keeps invoice and bill ids numbered by position |
| FinanceProperties.RunKeepsSequentialIds | context/finance-context.tsx:292-382 | any sequence of non-upload operations keeps ids numbered by position |
| FinanceProperties.SeedIdsSequential | context/finance-context.tsx:74-185 | the seed invoices are INV-001..INV-005 and the seed bills BILL-001..BILL-005 by position |
| FinanceProperties.SequentialTaxFilingIdsDistinct | context/finance-context.tsx:307 | filings that keep the seed ids and carry their 1-based position as counter afterwards have pairwise distinct ids |
| FinanceProperties.AppendKeepsSequentialTaxFilingIds | context/finance-context.tsx:304-310 | appending a filing numbered after the old count keeps that numbering |
| FinanceProperties.SetStatusKeepsSequentialTaxFilingIds | context/finance-context.tsx:351-358 | a filing status change keeps that numbering |
| FinanceProperties.StepKeepsSequentialTaxFilingIds | context/finance-context.tsx:292-382 | every non-upload operation keeps the filing numbering |
| FinanceProperties.RunKeepsSequentialTaxFilingIds | context/finance-context.tsx:292-382 | any sequence of non-upload operations keeps the filing numbering |
| FinanceProperties.SeedHistoryIdsDistinct | context/finance-context.tsx:292-382 | from the seed, invoice ids, bill ids and tax filing ids stay pairwise distinct through any history without uploads, whatever years the clock shows |
| FinanceProperties.SeedAddPaidGasBill | context/finance-context.tsx:313-329 | a paid 60.00 "Gas" bill added to the seed gets id BILL-006, expenses 12405.00, profit 32826.89, unchanged revenue and margin 32826.89/45231.89*100 |
| FinanceProperties.SeedPayInvoice002 | context/finance-context.tsx:332-347 | paying the seed's INV-002 sets it paid and gives sales 3500.00, revenue 47731.89, profit 35386.89, completed 6, unchanged expenses and the month's sales credited by 2500.00 |
| BillsPage.Percentage | app/dashboard/bills/page.tsx:47-49 | `total > 0 ? part / total * 100 : 0`; `PercentagesSumTo100` states what the three percentages are and that they add up to 100 |
| BillsPage.Stats | app/dashboard/bills/page.tsx:38-49 | the page's bill statistics; `BucketsPartitionTotal` and `PercentagesSumTo100` state how they relate |
| BillsPage.BucketsPartitionTotal | app/dashboard/bills/page.tsx:38-45 | the paid, pending and overdue sums add up to the total bill amount |
| BillsPage.PercentagesSumTo100 | app/dashboard/bills/page.tsx:47-49 | without a positive total every percentage is 0; otherwise each is its bucket's share and the three add up to 100 |
| BillsPage.InitialBillForm | app/dashboard/bills/page.tsx:29-35 | the form's `useState` initialiser; `ResetIsInitial` states that the reset value equals it |
| BillsPage.ResetBillForm | app/dashboard/bills/page.tsx:84-90 | the value after a successful submit; `ResetIsInitial` states that it is the initial form |
| BillsPage.BillFormComplete | app/dashboard/bills/page.tsx:65 | the validation guard; `BillSubmission` states that a submit is rejected exactly when it fails |
| BillsPage.ResetIsInitial | app/dashboard/bills/page.tsx:84-90 | the form is reset to its initial value |
| BillsPage.BillSubmission | app/dashboard/bills/page.tsx:61-81 | a submit is rejected exactly when name, due date or amount is empty, and otherwise hands on the form's fields with the parsed amount |
| BillsPage.PayNowOffered | app/dashboard/bills/page.tsx:281-283 | the row's Pay Now condition; `PayNowRecordsExpenseOnce` states that afterwards the row no longer offers it |
| BillsPage.PayNowRecordsExpenseOnce | app/dashboard/bills/page.tsx:281-283 | with no earlier bill sharing its id, "Pay Now" records that bill's amount as an expense, marks it paid and stops offering the button |
| BillsPage.PayNowShadowedByPaidDuplicate | app/dashboard/bills/page.tsx:281-283 | when an earlier bill with the same id is already paid, "Pay Now" marks the row paid but records no expense |
| BillsPage.BillsPageState.constructor | app/dashboard/bills/page.tsx:27-34 | the dialog starts closed with the initial form |
| BillsPage.BillsPageState.HandleSubmit | app/dashboard/bills/page.tsx:61-97 | a rejected submit changes nothing; an accepted one adds the bill through the store, resets the form and closes the dialog |
| BillsPage.BillsPageState.HandleStatusChange | app/dashboard/bills/page.tsx:99-106 | the store's state becomes `UpdateBillStatusSpec` of the old one |
| BillsPage.BillsPageState.PayNow | app/dashboard/bills/page.tsx:281-283 | a row that is not paid is updated to paid through the status handler |
| TaxesPage.ResetIsInitial | app/dashboard/taxes/page.tsx:70-76 | the form is reset to its initial value |
| TaxesPage.InitialTaxForm | app/dashboard/taxes/page.tsx:29-35 | the form's `useState` initialiser; `ResetIsInitial` states that the reset value equals it |
| TaxesPage.ResetTaxForm | app/dashboard/taxes/page.tsx:70-76 | the value after a successful submit; `ResetIsInitial` states that it is the initial form |
| TaxesPage.TaxFormComplete | app/dashboard/taxes/page.tsx:51 | the validation guard; `TaxSubmission` states that a submit is rejected exactly when it fails |
| TaxesPage.TaxSubmission | app/dashboard/taxes/page.tsx:47-67 | a submit is rejected exactly when period, due date or amount is empty, and otherwise hands on the form's fields with the parsed amount |
| TaxesPage.AcceptedSubmissionAppendsFiling | app/dashboard/taxes/page.tsx:61-67 | an accepted submit appends exactly one filing carrying the form's fields and the next id, and touches nothing else in the store |
| TaxesPage.MarkAsFiledOffered | app/dashboard/taxes/page.tsx:247-249 | the row's Mark as Filed condition; `MarkAsFiledFilesRow` states that afterwards the row no longer offers it |
| TaxesPage.MarkAsFiledFilesRow | app/dashboard/taxes/page.tsx:247-249 | "Mark as Filed" files the row and every filing sharing its id, leaves the rest of the store alone and stops offering the button |
| TaxesPage.TaxesPageState.constructor | app/dashboard/taxes/page.tsx:27-35 | the dialog starts closed with the initial form |
| TaxesPage.TaxesPageState.HandleSubmit | app/dashboard/taxes/page.tsx:47-83 | a rejected submit changes nothing; an accepted one adds the filing through the store, resets the form and closes the dialog |
| TaxesPage.TaxesPageState.HandleStatusChange | app/dashboard/taxes/page.tsx:85-92 | the store's state becomes `UpdateTaxFilingStatusSpec` of the old one |
| TaxesPage.TaxesPageState.MarkAsFiled | app/dashboard/taxes/page.tsx:247-249 | a row that is not filed is updated to filed through the status handler |

## Left out

- Persistence to and from `localStorage` (context/finance-context.tsx:258-290) is left out. It is I/O, and the model's state is what the store holds in memory.
- The 1500 ms `setTimeout` of the two uploads is not modelled; each upload runs its delayed callback at once. The interval in which `isLoading` is true, and any operation interleaved during that interval, are therefore not modelled.
- React batching across several calls in one render is not modelled. Each operation reads the state left by the previous operation, as separate events do.
- FinanceContext.UploadedInvoice, FinanceContext.UploadedBill, FinanceContext.UploadedTaxFiling: a status string outside its union (`"cancelled"`, `"Paid"`) is kept by `status || "pending"` (context/finance-context.tsx:434, 478, 506), but the model's status is `None` or one of the three union values. Such strings are not modelled, so an uploaded invoice with `"Paid"` is never counted as paid. BillsPage.BucketsPartitionTotal and BillsPage.PercentagesSumTo100 therefore hold only for bills whose status is one of the three values: a bill with another status counts in the page's total but in no bucket.
- Upload arrays whose elements are `null` are left out. Fields holding values of another JavaScript type (a string amount, say) are left out too. `Array.isArray` failing is modelled as an absent field.
- The uploads' series merges add to and average fields of the point objects they copied from the old array, so the old array's objects change too. The model copies the values, and that aliasing is not modelled.
- Amounts are reals, not IEEE doubles, so rounding is not modelled. Only the margin division models JavaScript's non-finite results.
- `Number.parseFloat` of the form's amount text is a parameter. A `NaN` parse result is not modelled.
- The clock (`toLocaleString`, `toLocaleDateString`, `getFullYear`) and `Math.random` are parameters.
- Toasts, the rendered JSX, the `handleInputChange` and `handleSelectChange` field setters, and the upload form are left out. They are UI around the modelled handlers.
- `newCustomers`, `targetVsReality` and `visitorData` are seeded and carried along. No operation changes them, and the lemmas state that the uploads keep them.
- FinanceProperties.SeedHistoryIdsDistinct: covers histories without uploads only. Every upload numbers its batch from 1 again (`INV-UPLOAD-001`, `BILL-UPLOAD-001`, `TX-UPLOAD-001`, ...), so two uploads repeat ids (see `RepeatedUploadRepeatsIds`).

/** The finance store (`FinanceProvider`): its records, its seed data, the accounting rules
    applied to its metrics, and the store object whose operations replace its state fields.

    Every operation reads the state as it was when the operation began (a snapshot) and
    replaces fields through setters computed from that snapshot, so when one operation sets
    the same field twice the later value wins. `XSpec` functions give the net effect of each
    operation on a `StoreState`; the methods of `FinanceStore` follow the setter sequence of
    the source and are proved to reach that net effect. */
module FinanceContext {
  import opened Ids

  datatype Option<T> = None | Some(value: T)

  // ---------------------------------------------------------------- records

  datatype PaymentStatus = Paid | Pending | Overdue

  datatype FilingStatus = Filed | Pending | Overdue

  datatype Invoice = Invoice(id: string, client: string, issueDate: string, dueDate: string,
                             amount: real, status: PaymentStatus)

  datatype TaxFiling = TaxFiling(id: string, taxType: string, period: string, dueDate: string,
                                 amount: real, status: FilingStatus)

  datatype Bill = Bill(id: string, name: string, category: string, dueDate: string,
                       amount: real, status: PaymentStatus)

  datatype SalesPoint = SalesPoint(month: string, total: real)

  datatype SatisfactionPoint = SatisfactionPoint(month: string, satisfaction: real)

  datatype TargetPoint = TargetPoint(name: string, target: real, actual: real)

  datatype VisitorPoint = VisitorPoint(name: string, newVisitors: int, returningVisitors: int,
                                       uniqueVisitors: int)

  /** A JavaScript number as the margin division can produce it: a quotient by zero is an
      infinity with the numerator's sign, or NaN for zero over zero. */
  datatype Ratio = Finite(value: real) | PositiveInfinity | NegativeInfinity | NotANumber

  /** `(numerator / denominator) * 100` in JavaScript arithmetic. */
  function Percent(numerator: real, denominator: real): (r: Ratio)
    ensures r.Finite? <==> denominator != 0.0
    ensures r.Finite? ==> r.value * denominator == numerator * 100.0
    ensures r == PositiveInfinity <==> denominator == 0.0 && numerator > 0.0
    ensures r == NegativeInfinity <==> denominator == 0.0 && numerator < 0.0
  {
    if denominator != 0.0 then Finite(numerator / denominator * 100.0)
    else if numerator > 0.0 then PositiveInfinity
    else if numerator < 0.0 then NegativeInfinity
    else NotANumber
  }

  datatype Metrics = Metrics(totalSales: real, totalOrders: int, completed: int, newCustomers: int,
                             totalRevenue: real, expenses: real, profit: real, profitMargin: Ratio)

  /** An invoice as a caller hands it to `addInvoice` (`Omit<Invoice, "id">`). */
  datatype InvoiceDraft = InvoiceDraft(client: string, issueDate: string, dueDate: string,
                                       amount: real, status: PaymentStatus)
  {
    function WithId(id: string): Invoice {
      Invoice(id, client, issueDate, dueDate, amount, status)
    }
  }

  datatype TaxFilingDraft = TaxFilingDraft(taxType: string, period: string, dueDate: string,
                                           amount: real, status: FilingStatus)
  {
    function WithId(id: string): TaxFiling {
      TaxFiling(id, taxType, period, dueDate, amount, status)
    }
  }

  datatype BillDraft = BillDraft(name: string, category: string, dueDate: string,
                                 amount: real, status: PaymentStatus)
  {
    function WithId(id: string): Bill {
      Bill(id, name, category, dueDate, amount, status)
    }
  }

  /** The eight state fields of the provider plus its loading flag. */
  datatype StoreState = StoreState(
    invoices: seq<Invoice>,
    taxFilings: seq<TaxFiling>,
    bills: seq<Bill>,
    salesData: seq<SalesPoint>,
    customerSatisfaction: seq<SatisfactionPoint>,
    targetVsReality: seq<TargetPoint>,
    visitorData: seq<VisitorPoint>,
    metrics: Metrics,
    isLoading: bool)

  // ---------------------------------------------------------------- upload payloads

  /** One element of an uploaded `invoices` array. A string field that is missing or empty is
      "", a missing or zero amount is 0.0, a missing status is None: all are falsy for `||`. */
  datatype RawInvoice = RawInvoice(client: string, issueDate: string, dueDate: string,
                                   amount: real, status: Option<PaymentStatus>)

  datatype RawBill = RawBill(name: string, category: string, dueDate: string,
                             amount: real, status: Option<PaymentStatus>)

  datatype RawTaxFiling = RawTaxFiling(taxType: string, period: string, dueDate: string,
                                       amount: real, status: Option<FilingStatus>)

  /** `{month, total}`; a missing total is 0.0 (`item.total || 0`). */
  datatype SalesItem = SalesItem(month: string, total: real)

  /** `{month, satisfaction}`; a missing or zero satisfaction is 0.0 and is skipped. */
  datatype SatisfactionItem = SatisfactionItem(month: string, satisfaction: real)

  /** A parsed financial upload; each key is None when absent or not an array. */
  datatype FinancialUpload = FinancialUpload(
    invoices: Option<seq<RawInvoice>>,
    bills: Option<seq<RawBill>>,
    salesData: Option<seq<SalesItem>>,
    customerSatisfaction: Option<seq<SatisfactionItem>>)

  /** A parsed tax upload; `totalTaxes` is 0.0 when the summary or its total is absent or falsy. */
  datatype TaxUpload = TaxUpload(taxFilings: Option<seq<RawTaxFiling>>, totalTaxes: real)

  /** `Math.floor(Math.random() * k)` for k = 4, 500 and 5000. */
  type Below4 = n: nat | n < 4
  type Below500 = n: nat | n < 500
  type Below5000 = n: nat | n < 5000

  /** What a financial upload takes from the clock and the random generator: the current
      month label, today's date and the date fifteen days on, and the draw made for the
      element at each batch index. */
  datatype FinancialUploadEnv = FinancialUploadEnv(
    month: string,
    today: string,
    dueIn15Days: string,
    invoiceAmountDraw: nat -> Below5000,
    billAmountDraw: nat -> Below500)

  datatype TaxUploadEnv = TaxUploadEnv(
    year: nat,
    today: string,
    quarterDraw: nat -> Below4,
    amountDraw: nat -> Below5000)

  // ---------------------------------------------------------------- seed data

  function SeedInvoices(): seq<Invoice> {
    [ Invoice("INV-001", "Acme Inc.", "01/05/2023", "15/05/2023", 1250.0, Paid),
      Invoice("INV-002", "Globex Corp.", "15/05/2023", "30/05/2023", 2500.0, PaymentStatus.Pending),
      Invoice("INV-003", "Stark Industries", "01/06/2023", "15/06/2023", 3750.0, PaymentStatus.Overdue),
      Invoice("INV-004", "Wayne Enterprises", "15/06/2023", "30/06/2023", 4250.0, Paid),
      Invoice("INV-005", "Oscorp", "01/07/2023", "15/07/2023", 1800.0, PaymentStatus.Pending) ]
  }

  function SeedTaxFilings(): seq<TaxFiling> {
    [ TaxFiling("TX-2023-Q1", "Income Tax", "Q1 2023", "15/04/2023", 4250.0, Filed),
      TaxFiling("TX-2023-Q2", "Income Tax", "Q2 2023", "15/07/2023", 5120.0, FilingStatus.Pending),
      TaxFiling("TX-2023-VAT-1", "VAT", "Jan-Mar 2023", "30/04/2023", 2340.0, Filed) ]
  }

  function SeedBills(): seq<Bill> {
    [ Bill("BILL-001", "Electricity", "Utilities", "15/07/2023", 125.0, PaymentStatus.Pending),
      Bill("BILL-002", "Water", "Utilities", "20/07/2023", 85.0, PaymentStatus.Pending),
      Bill("BILL-003", "Internet", "Utilities", "05/07/2023", 79.99, Paid),
      Bill("BILL-004", "Office Rent", "Rent", "01/07/2023", 1200.0, Paid),
      Bill("BILL-005", "Phone", "Utilities", "25/06/2023", 45.0, PaymentStatus.Overdue) ]
  }

  function SeedSalesData(): seq<SalesPoint> {
    [ SalesPoint("Jan", 1800.0), SalesPoint("Feb", 2200.0), SalesPoint("Mar", 1100.0),
      SalesPoint("Apr", 2800.0), SalesPoint("May", 900.0), SalesPoint("Jun", 1700.0),
      SalesPoint("Jul", 2600.0), SalesPoint("Aug", 1900.0), SalesPoint("Sep", 2300.0),
      SalesPoint("Oct", 2100.0), SalesPoint("Nov", 2500.0), SalesPoint("Dec", 2900.0) ]
  }

  function SeedCustomerSatisfaction(): seq<SatisfactionPoint> {
    [ SatisfactionPoint("Jan", 85.0), SatisfactionPoint("Feb", 82.0), SatisfactionPoint("Mar", 87.0),
      SatisfactionPoint("Apr", 84.0), SatisfactionPoint("May", 89.0), SatisfactionPoint("Jun", 92.0),
      SatisfactionPoint("Jul", 90.0), SatisfactionPoint("Aug", 88.0), SatisfactionPoint("Sep", 91.0),
      SatisfactionPoint("Oct", 93.0), SatisfactionPoint("Nov", 94.0), SatisfactionPoint("Dec", 95.0) ]
  }

  function SeedTargetVsReality(): seq<TargetPoint> {
    [ TargetPoint("Jan", 2000.0, 1800.0), TargetPoint("Feb", 2200.0, 2400.0),
      TargetPoint("Mar", 2400.0, 2200.0), TargetPoint("Apr", 2600.0, 2800.0),
      TargetPoint("May", 2800.0, 2600.0), TargetPoint("Jun", 3000.0, 3200.0) ]
  }

  function SeedVisitorData(): seq<VisitorPoint> {
    [ VisitorPoint("Jan", 400, 240, 320), VisitorPoint("Feb", 300, 290, 280),
      VisitorPoint("Mar", 500, 300, 400), VisitorPoint("Apr", 700, 400, 550),
      VisitorPoint("May", 400, 380, 390), VisitorPoint("Jun", 500, 450, 480) ]
  }

  function SeedMetrics(): Metrics {
    Metrics(1000.0, 300, 5, 8, 45231.89, 12345.0, 32886.89, Finite(72.7))
  }

  function Seed(): StoreState {
    StoreState(SeedInvoices(), SeedTaxFilings(), SeedBills(), SeedSalesData(),
               SeedCustomerSatisfaction(), SeedTargetVsReality(), SeedVisitorData(),
               SeedMetrics(), false)
  }

  // ---------------------------------------------------------------- identifiers

  function InvoiceId(n: nat): string {
    "INV-" + PadNumber(n, 3)
  }

  function BillId(n: nat): string {
    "BILL-" + PadNumber(n, 3)
  }

  function TaxFilingId(year: nat, n: nat): string {
    "TX-" + Decimal(year) + "-" + PadNumber(n, 2)
  }

  /** Identifier of the batch element at `index` (0-based) in an upload. */
  function UploadId(prefix: string, index: nat): string {
    prefix + PadNumber(index + 1, 3)
  }

  // ---------------------------------------------------------------- lookups

  /** `findIndex` for a key: the first position holding `k`, or -1. */
  function FirstIndexOf<K(==)>(keys: seq<K>, k: K): (r: int)
    ensures -1 <= r < |keys|
    ensures r >= 0 ==> keys[r] == k && forall j :: 0 <= j < r ==> keys[j] != k
    ensures r == -1 <==> k !in keys
  {
    if keys == [] then -1
    else if keys[0] == k then 0
    else
      var rest := FirstIndexOf(keys[1..], k);
      if rest < 0 then -1 else rest + 1
  }

  function InvoiceIds(invs: seq<Invoice>): seq<string> {
    seq(|invs|, i requires 0 <= i < |invs| => invs[i].id)
  }

  function TaxFilingIds(filings: seq<TaxFiling>): seq<string> {
    seq(|filings|, i requires 0 <= i < |filings| => filings[i].id)
  }

  function BillIds(bills: seq<Bill>): seq<string> {
    seq(|bills|, i requires 0 <= i < |bills| => bills[i].id)
  }

  function SalesMonths(series: seq<SalesPoint>): seq<string> {
    seq(|series|, i requires 0 <= i < |series| => series[i].month)
  }

  function SatisfactionMonths(series: seq<SatisfactionPoint>): seq<string> {
    seq(|series|, i requires 0 <= i < |series| => series[i].month)
  }

  // ---------------------------------------------------------------- status updates

  /** `invoices.map(...)`: every invoice with this id gets the new status. */
  function SetInvoiceStatus(invs: seq<Invoice>, id: string, status: PaymentStatus): seq<Invoice> {
    seq(|invs|, i requires 0 <= i < |invs| => if invs[i].id == id then invs[i].(status := status) else invs[i])
  }

  function SetTaxFilingStatus(filings: seq<TaxFiling>, id: string, status: FilingStatus): seq<TaxFiling> {
    seq(|filings|, i requires 0 <= i < |filings| =>
      if filings[i].id == id then filings[i].(status := status) else filings[i])
  }

  function SetBillStatus(bills: seq<Bill>, id: string, status: PaymentStatus): seq<Bill> {
    seq(|bills|, i requires 0 <= i < |bills| => if bills[i].id == id then bills[i].(status := status) else bills[i])
  }

  /** The payment rule of `updateInvoiceStatus` applies: `invoices.find` hits an invoice,
      the new status is paid and the found invoice was not. */
  predicate InvoicePaymentFires(invs: seq<Invoice>, id: string, status: PaymentStatus) {
    var k := FirstIndexOf(InvoiceIds(invs), id);
    k >= 0 && status == Paid && invs[k].status != Paid
  }

  predicate BillExpenseFires(bills: seq<Bill>, id: string, status: PaymentStatus) {
    var k := FirstIndexOf(BillIds(bills), id);
    k >= 0 && status == Paid && bills[k].status != Paid
  }

  /** Amount of the first invoice with this id (0.0 when there is none). */
  function FoundInvoiceAmount(invs: seq<Invoice>, id: string): real {
    var k := FirstIndexOf(InvoiceIds(invs), id);
    if k >= 0 then invs[k].amount else 0.0
  }

  function FoundBillAmount(bills: seq<Bill>, id: string): real {
    var k := FirstIndexOf(BillIds(bills), id);
    if k >= 0 then bills[k].amount else 0.0
  }

  // ---------------------------------------------------------------- filters and sums

  function InvoicesWithStatus(invs: seq<Invoice>, status: PaymentStatus): seq<Invoice> {
    if invs == [] then []
    else (if invs[0].status == status then [invs[0]] else []) + InvoicesWithStatus(invs[1..], status)
  }

  function InvoiceAmountTotal(invs: seq<Invoice>): real {
    if invs == [] then 0.0 else invs[0].amount + InvoiceAmountTotal(invs[1..])
  }

  function BillsWithStatus(bills: seq<Bill>, status: PaymentStatus): seq<Bill> {
    if bills == [] then []
    else (if bills[0].status == status then [bills[0]] else []) + BillsWithStatus(bills[1..], status)
  }

  function BillAmountTotal(bills: seq<Bill>): real {
    if bills == [] then 0.0 else bills[0].amount + BillAmountTotal(bills[1..])
  }

  // ---------------------------------------------------------------- accounting rules

  /** `profit == totalRevenue - expenses`: the seed has it and every rule keeps it. */
  predicate ProfitIdentity(m: Metrics) {
    m.profit == m.totalRevenue - m.expenses
  }

  /** `profitMargin` is the margin of the stored profit over the stored revenue. */
  predicate MarginConsistent(m: Metrics) {
    m.profitMargin == Percent(m.profit, m.totalRevenue)
  }

  /** The metrics half of `updateMetricsAfterPayment`: an amount realised as revenue. */
  function PaymentMetrics(m: Metrics, amount: real): (r: Metrics)
    ensures MarginConsistent(r)
    ensures ProfitIdentity(m) ==> ProfitIdentity(r)
  {
    m.(totalSales := m.totalSales + amount,
       totalRevenue := m.totalRevenue + amount,
       profit := m.profit + amount,
       profitMargin := Percent(m.profit + amount, m.totalRevenue + amount),
       completed := m.completed + 1)
  }

  /** The expense rule shared by `addBill`, `updateBillStatus` and `uploadTaxData`. */
  function ExpenseMetrics(m: Metrics, amount: real): (r: Metrics)
    ensures MarginConsistent(r)
    ensures ProfitIdentity(m) ==> ProfitIdentity(r)
  {
    m.(expenses := m.expenses + amount,
       profit := m.profit - amount,
       profitMargin := Percent(m.profit - amount, m.totalRevenue))
  }

  /** The series half of `updateMetricsAfterPayment`: every entry labelled with the current
      month gains the amount. */
  function CreditMonth(sales: seq<SalesPoint>, month: string, amount: real): seq<SalesPoint> {
    seq(|sales|, i requires 0 <= i < |sales| =>
      if sales[i].month == month then sales[i].(total := sales[i].total + amount) else sales[i])
  }

  /** One `forEach` step of the sales merge: the first entry with the item's month gains its total. */
  function CreditFirstMonth(series: seq<SalesPoint>, item: SalesItem): (r: seq<SalesPoint>)
    ensures |r| == |series| && SalesMonths(r) == SalesMonths(series)
  {
    var k := FirstIndexOf(SalesMonths(series), item.month);
    if k >= 0 then
      var r := series[k := series[k].(total := series[k].total + item.total)];
      assert SalesMonths(r) == SalesMonths(series) by {
        assert forall i :: 0 <= i < |r| ==> SalesMonths(r)[i] == SalesMonths(series)[i];
      }
      r
    else series
  }

  /** The sales merge of `uploadFinancialData`: the items applied in order. It keeps every
      month label in place. */
  function MergeSales(series: seq<SalesPoint>, items: seq<SalesItem>): (r: seq<SalesPoint>)
    ensures |r| == |series| && SalesMonths(r) == SalesMonths(series)
    decreases |items|
  {
    if items == [] then series
    else CreditFirstMonth(MergeSales(series, items[..|items| - 1]), items[|items| - 1])
  }

  /** One `forEach` step of the satisfaction merge: a truthy value is averaged into the first
      entry with the item's month. */
  function AverageFirstMonth(series: seq<SatisfactionPoint>, item: SatisfactionItem): (r: seq<SatisfactionPoint>)
    ensures |r| == |series| && SatisfactionMonths(r) == SatisfactionMonths(series)
  {
    var k := FirstIndexOf(SatisfactionMonths(series), item.month);
    if k >= 0 && item.satisfaction != 0.0 then
      var r := series[k := series[k].(satisfaction := (series[k].satisfaction + item.satisfaction) / 2.0)];
      assert SatisfactionMonths(r) == SatisfactionMonths(series) by {
        assert forall i :: 0 <= i < |r| ==> SatisfactionMonths(r)[i] == SatisfactionMonths(series)[i];
      }
      r
    else series
  }

  /** The satisfaction merge of `uploadFinancialData`: the items applied in order. It keeps
      every month label in place. */
  function MergeSatisfaction(series: seq<SatisfactionPoint>, items: seq<SatisfactionItem>): (r: seq<SatisfactionPoint>)
    ensures |r| == |series| && SatisfactionMonths(r) == SatisfactionMonths(series)
    decreases |items|
  {
    if items == [] then series
    else AverageFirstMonth(MergeSatisfaction(series, items[..|items| - 1]), items[|items| - 1])
  }

  // ---------------------------------------------------------------- upload batches

  /** JavaScript `a || b` on a string field. */
  function OrString(s: string, default: string): string {
    if s != "" then s else default
  }

  /** JavaScript `a || b` on a numeric field. */
  function OrAmount(a: real, default: real): real {
    if a != 0.0 then a else default
  }

  function UploadedInvoice(raw: RawInvoice, index: nat, env: FinancialUploadEnv): Invoice {
    Invoice(UploadId("INV-UPLOAD-", index),
            OrString(raw.client, "New Client"),
            OrString(raw.issueDate, env.today),
            OrString(raw.dueDate, env.dueIn15Days),
            OrAmount(raw.amount, (env.invoiceAmountDraw(index) + 500) as real),
            if raw.status.Some? then raw.status.value else PaymentStatus.Pending)
  }

  function UploadedBill(raw: RawBill, index: nat, env: FinancialUploadEnv): Bill {
    Bill(UploadId("BILL-UPLOAD-", index),
         OrString(raw.name, "New Bill"),
         OrString(raw.category, "Utilities"),
         OrString(raw.dueDate, env.dueIn15Days),
         OrAmount(raw.amount, (env.billAmountDraw(index) + 50) as real),
         if raw.status.Some? then raw.status.value else PaymentStatus.Pending)
  }

  /** The default period `Q<1..4> <year>`. */
  function DefaultPeriod(env: TaxUploadEnv, index: nat): string {
    "Q" + Decimal(env.quarterDraw(index) + 1) + " " + Decimal(env.year)
  }

  function UploadedTaxFiling(raw: RawTaxFiling, index: nat, env: TaxUploadEnv): TaxFiling {
    TaxFiling(UploadId("TX-UPLOAD-", index),
              OrString(raw.taxType, "Income Tax"),
              OrString(raw.period, DefaultPeriod(env, index)),
              OrString(raw.dueDate, env.today),
              OrAmount(raw.amount, (env.amountDraw(index) + 1000) as real),
              if raw.status.Some? then raw.status.value else FilingStatus.Pending)
  }

  function InvoiceBatch(raws: seq<RawInvoice>, env: FinancialUploadEnv): seq<Invoice> {
    seq(|raws|, i requires 0 <= i < |raws| => UploadedInvoice(raws[i], i, env))
  }

  function BillBatch(raws: seq<RawBill>, env: FinancialUploadEnv): seq<Bill> {
    seq(|raws|, i requires 0 <= i < |raws| => UploadedBill(raws[i], i, env))
  }

  function TaxFilingBatch(raws: seq<RawTaxFiling>, env: TaxUploadEnv): seq<TaxFiling> {
    seq(|raws|, i requires 0 <= i < |raws| => UploadedTaxFiling(raws[i], i, env))
  }

  /** Total of the paid invoices of an uploaded batch (0.0 without an invoices array). */
  function UploadPaidInvoiceTotal(up: FinancialUpload, env: FinancialUploadEnv): real {
    if up.invoices.Some?
    then InvoiceAmountTotal(InvoicesWithStatus(InvoiceBatch(up.invoices.value, env), Paid))
    else 0.0
  }

  function UploadPaidBillTotal(up: FinancialUpload, env: FinancialUploadEnv): real {
    if up.bills.Some?
    then BillAmountTotal(BillsWithStatus(BillBatch(up.bills.value, env), Paid))
    else 0.0
  }

  // ---------------------------------------------------------------- net effect of each operation

  function AddInvoiceSpec(s: StoreState, d: InvoiceDraft, month: string): StoreState {
    s.(invoices := s.invoices + [d.WithId(InvoiceId(|s.invoices| + 1))],
       metrics := s.metrics.(totalOrders := s.metrics.totalOrders + 1),
       salesData := if d.status == Paid then CreditMonth(s.salesData, month, d.amount) else s.salesData)
  }

  function AddTaxFilingSpec(s: StoreState, d: TaxFilingDraft, year: nat): StoreState {
    s.(taxFilings := s.taxFilings + [d.WithId(TaxFilingId(year, |s.taxFilings| + 1))])
  }

  function AddBillSpec(s: StoreState, d: BillDraft): StoreState
  {
    s.(bills := s.bills + [d.WithId(BillId(|s.bills| + 1))],
       metrics := if d.status == Paid then ExpenseMetrics(s.metrics, d.amount) else s.metrics)
  }

  function UpdateInvoiceStatusSpec(s: StoreState, id: string, status: PaymentStatus, month: string): StoreState
  {
    var a := FoundInvoiceAmount(s.invoices, id);
    if InvoicePaymentFires(s.invoices, id, status)
    then s.(invoices := SetInvoiceStatus(s.invoices, id, status),
            metrics := PaymentMetrics(s.metrics, a),
            salesData := CreditMonth(s.salesData, month, a))
    else s.(invoices := SetInvoiceStatus(s.invoices, id, status))
  }

  function UpdateTaxFilingStatusSpec(s: StoreState, id: string, status: FilingStatus): StoreState {
    s.(taxFilings := SetTaxFilingStatus(s.taxFilings, id, status))
  }

  function UpdateBillStatusSpec(s: StoreState, id: string, status: PaymentStatus): StoreState
  {
    if BillExpenseFires(s.bills, id, status)
    then s.(bills := SetBillStatus(s.bills, id, status),
            metrics := ExpenseMetrics(s.metrics, FoundBillAmount(s.bills, id)))
    else s.(bills := SetBillStatus(s.bills, id, status))
  }

  /** `uploadTaxData` taken as one step; a None payload is one whose field access throws. */
  function UploadTaxDataSpec(s: StoreState, data: Option<TaxUpload>, env: TaxUploadEnv): StoreState
  {
    if data.None? then s.(isLoading := false)
    else
      var up := data.value;
      s.(taxFilings := if up.taxFilings.Some? then s.taxFilings + TaxFilingBatch(up.taxFilings.value, env)
                       else s.taxFilings,
         metrics := if up.totalTaxes != 0.0 then ExpenseMetrics(s.metrics, up.totalTaxes) else s.metrics,
         isLoading := false)
  }

  /** Net effect of `uploadFinancialData`. The bill expense rule overwrites the invoice
      counters, and an uploaded sales series overwrites the payment-rule credit. */
  function UploadFinancialDataSpec(s: StoreState, data: Option<FinancialUpload>, env: FinancialUploadEnv): StoreState
  {
    if data.None? then s.(isLoading := false)
    else
      var up := data.value;
      var newInvoices := if up.invoices.Some? then InvoiceBatch(up.invoices.value, env) else [];
      var paidTotal := UploadPaidInvoiceTotal(up, env);
      var billTotal := UploadPaidBillTotal(up, env);
      s.(invoices := if up.invoices.Some? then s.invoices + newInvoices else s.invoices,
         bills := if up.bills.Some? then s.bills + BillBatch(up.bills.value, env) else s.bills,
         metrics :=
           if up.bills.Some? && billTotal > 0.0 then ExpenseMetrics(s.metrics, billTotal)
           else if up.invoices.Some?
           then s.metrics.(totalOrders := s.metrics.totalOrders + |newInvoices|,
                           completed := s.metrics.completed + |InvoicesWithStatus(newInvoices, Paid)|)
           else s.metrics,
         salesData :=
           if up.salesData.Some? then MergeSales(s.salesData, up.salesData.value)
           else if up.invoices.Some? && paidTotal > 0.0 then CreditMonth(s.salesData, env.month, paidTotal)
           else s.salesData,
         customerSatisfaction :=
           if up.customerSatisfaction.Some?
           then MergeSatisfaction(s.customerSatisfaction, up.customerSatisfaction.value)
           else s.customerSatisfaction,
         isLoading := false)
  }

  // ---------------------------------------------------------------- in-place series merges

  /** The `forEach` over uploaded sales items, mutating a copy of the series. */
  method MergeSalesInto(a: array<SalesPoint>, items: seq<SalesItem>)
    modifies a
    ensures a[..] == MergeSales(old(a[..]), items)
  {
    ghost var start := a[..];
    var k := 0;
    while k < |items|
      invariant 0 <= k <= |items|
      invariant a[..] == MergeSales(start, items[..k])
    {
      var item := items[k];
      var existing := FirstIndexOf(SalesMonths(a[..]), item.month);
      if existing >= 0 {
        a[existing] := a[existing].(total := a[existing].total + item.total);
      }
      assert items[..k + 1][..k] == items[..k];
      k := k + 1;
    }
    assert items[..k] == items;
  }

  /** The `forEach` over uploaded satisfaction items, mutating a copy of the series. */
  method MergeSatisfactionInto(a: array<SatisfactionPoint>, items: seq<SatisfactionItem>)
    modifies a
    ensures a[..] == MergeSatisfaction(old(a[..]), items)
  {
    ghost var start := a[..];
    var k := 0;
    while k < |items|
      invariant 0 <= k <= |items|
      invariant a[..] == MergeSatisfaction(start, items[..k])
    {
      var item := items[k];
      var existing := FirstIndexOf(SatisfactionMonths(a[..]), item.month);
      if existing >= 0 && item.satisfaction != 0.0 {
        a[existing] := a[existing].(satisfaction := (a[existing].satisfaction + item.satisfaction) / 2.0);
      }
      assert items[..k + 1][..k] == items[..k];
      k := k + 1;
    }
    assert items[..k] == items;
  }

  // ---------------------------------------------------------------- the store

  class FinanceStore {
    var invoices: seq<Invoice>
    var taxFilings: seq<TaxFiling>
    var bills: seq<Bill>
    var salesData: seq<SalesPoint>
    var customerSatisfaction: seq<SatisfactionPoint>
    var targetVsReality: seq<TargetPoint>
    var visitorData: seq<VisitorPoint>
    var metrics: Metrics
    var isLoading: bool

    function State(): StoreState
      reads this
    {
      StoreState(invoices, taxFilings, bills, salesData, customerSatisfaction,
                 targetVsReality, visitorData, metrics, isLoading)
    }

    /** The provider's `useState` initialisers: the seed data, not loading. */
    constructor ()
      ensures State() == Seed()
    {
      invoices := SeedInvoices();
      taxFilings := SeedTaxFilings();
      bills := SeedBills();
      salesData := SeedSalesData();
      customerSatisfaction := SeedCustomerSatisfaction();
      targetVsReality := SeedTargetVsReality();
      visitorData := SeedVisitorData();
      metrics := SeedMetrics();
      isLoading := false;
    }

    /** `updateMetricsAfterPayment`, reading the caller's snapshot. */
    method UpdateMetricsAfterPayment(snap: StoreState, amount: real, month: string)
      modifies this
      ensures State() == old(State()).(metrics := PaymentMetrics(snap.metrics, amount),
                                       salesData := CreditMonth(snap.salesData, month, amount))
    {
      metrics := PaymentMetrics(snap.metrics, amount);
      salesData := CreditMonth(snap.salesData, month, amount);
    }

    /** `updateMetricsAfterInvoice`: its own `setMetrics` replaces the payment rule's. */
    method UpdateMetricsAfterInvoice(snap: StoreState, invoice: Invoice, month: string)
      modifies this
      ensures State() == old(State()).(
        metrics := snap.metrics.(totalOrders := snap.metrics.totalOrders + 1),
        salesData := if invoice.status == Paid then CreditMonth(snap.salesData, month, invoice.amount)
                     else old(salesData))
    {
      if invoice.status == Paid {
        UpdateMetricsAfterPayment(snap, invoice.amount, month);
      }
      metrics := snap.metrics.(totalOrders := snap.metrics.totalOrders + 1);
    }

    method AddInvoice(invoice: InvoiceDraft, month: string)
      modifies this
      ensures State() == AddInvoiceSpec(old(State()), invoice, month)
    {
      var snap := State();
      var newInvoice := invoice.WithId(InvoiceId(|snap.invoices| + 1));
      invoices := snap.invoices + [newInvoice];
      UpdateMetricsAfterInvoice(snap, newInvoice, month);
    }

    method AddTaxFiling(filing: TaxFilingDraft, year: nat)
      modifies this
      ensures State() == AddTaxFilingSpec(old(State()), filing, year)
    {
      var newFiling := filing.WithId(TaxFilingId(year, |taxFilings| + 1));
      taxFilings := taxFilings + [newFiling];
    }

    method AddBill(bill: BillDraft)
      modifies this
      ensures State() == AddBillSpec(old(State()), bill)
    {
      var snap := State();
      var newBill := bill.WithId(BillId(|snap.bills| + 1));
      bills := snap.bills + [newBill];
      if bill.status == Paid {
        metrics := ExpenseMetrics(snap.metrics, bill.amount);
      }
    }

    method UpdateInvoiceStatus(id: string, status: PaymentStatus, month: string)
      modifies this
      ensures State() == UpdateInvoiceStatusSpec(old(State()), id, status, month)
    {
      var snap := State();
      invoices := SetInvoiceStatus(snap.invoices, id, status);
      var k := FirstIndexOf(InvoiceIds(snap.invoices), id);
      if k >= 0 && status == Paid && snap.invoices[k].status != Paid {
        UpdateMetricsAfterPayment(snap, snap.invoices[k].amount, month);
      }
    }

    method UpdateTaxFilingStatus(id: string, status: FilingStatus)
      modifies this
      ensures State() == UpdateTaxFilingStatusSpec(old(State()), id, status)
    {
      taxFilings := SetTaxFilingStatus(taxFilings, id, status);
    }

    method UpdateBillStatus(id: string, status: PaymentStatus)
      modifies this
      ensures State() == UpdateBillStatusSpec(old(State()), id, status)
    {
      var snap := State();
      bills := SetBillStatus(snap.bills, id, status);
      var k := FirstIndexOf(BillIds(snap.bills), id);
      if k >= 0 && status == Paid && snap.bills[k].status != Paid {
        metrics := ExpenseMetrics(snap.metrics, snap.bills[k].amount);
      }
    }

    /** `uploadTaxData` with its delayed callback run at once. */
    method UploadTaxData(data: Option<TaxUpload>, env: TaxUploadEnv)
      modifies this
      ensures State() == UploadTaxDataSpec(old(State()), data, env)
      ensures !isLoading
    {
      var snap := State();
      isLoading := true;
      if data.None? {
        // reading `taxFilings` of a null payload throws; the handler only clears the flag
        isLoading := false;
        return;
      }
      var up := data.value;
      if up.taxFilings.Some? {
        var newFilings := TaxFilingBatch(up.taxFilings.value, env);
        taxFilings := snap.taxFilings + newFilings;
      }
      if up.totalTaxes != 0.0 {
        metrics := ExpenseMetrics(snap.metrics, up.totalTaxes);
      }
      isLoading := false;
    }

    /** The invoices branch of `uploadFinancialData`: append the batch, apply the payment rule
        to the paid total, then replace metrics with the counters read from the snapshot. */
    method UploadInvoiceBatch(snap: StoreState, raws: seq<RawInvoice>, env: FinancialUploadEnv)
      modifies this
      ensures
        var newInvoices := InvoiceBatch(raws, env);
        var paidInvoices := InvoicesWithStatus(newInvoices, Paid);
        var totalPaidAmount := InvoiceAmountTotal(paidInvoices);
        State() == old(State()).(
          invoices := snap.invoices + newInvoices,
          metrics := snap.metrics.(totalOrders := snap.metrics.totalOrders + |newInvoices|,
                                   completed := snap.metrics.completed + |paidInvoices|),
          salesData := if totalPaidAmount > 0.0 then CreditMonth(snap.salesData, env.month, totalPaidAmount)
                       else old(salesData))
    {
      var newInvoices := InvoiceBatch(raws, env);
      invoices := snap.invoices + newInvoices;
      var paidInvoices := InvoicesWithStatus(newInvoices, Paid);
      var totalPaidAmount := InvoiceAmountTotal(paidInvoices);
      if totalPaidAmount > 0.0 {
        UpdateMetricsAfterPayment(snap, totalPaidAmount, env.month);
      }
      metrics := snap.metrics.(totalOrders := snap.metrics.totalOrders + |newInvoices|,
                               completed := snap.metrics.completed + |paidInvoices|);
    }

    /** The bills branch of `uploadFinancialData`: append the batch and apply the expense rule
        to the paid total, read from the snapshot. */
    method UploadBillBatch(snap: StoreState, raws: seq<RawBill>, env: FinancialUploadEnv)
      modifies this
      ensures
        var totalPaidAmount := BillAmountTotal(BillsWithStatus(BillBatch(raws, env), Paid));
        State() == old(State()).(
          bills := snap.bills + BillBatch(raws, env),
          metrics := if totalPaidAmount > 0.0 then ExpenseMetrics(snap.metrics, totalPaidAmount) else old(metrics))
    {
      var newBills := BillBatch(raws, env);
      bills := snap.bills + newBills;
      var totalPaidAmount := BillAmountTotal(BillsWithStatus(newBills, Paid));
      if totalPaidAmount > 0.0 {
        metrics := ExpenseMetrics(snap.metrics, totalPaidAmount);
      }
    }

    /** The sales branch of `uploadFinancialData`: merge into a copy of the snapshot series. */
    method UploadSalesSeries(snap: StoreState, items: seq<SalesItem>)
      modifies this
      ensures State() == old(State()).(salesData := MergeSales(snap.salesData, items))
    {
      var newSalesData := new SalesPoint[|snap.salesData|](i requires 0 <= i < |snap.salesData| => snap.salesData[i]);
      assert newSalesData[..] == snap.salesData;
      MergeSalesInto(newSalesData, items);
      salesData := newSalesData[..];
    }

    /** The satisfaction branch of `uploadFinancialData`. */
    method UploadSatisfactionSeries(snap: StoreState, items: seq<SatisfactionItem>)
      modifies this
      ensures State() == old(State()).(customerSatisfaction := MergeSatisfaction(snap.customerSatisfaction, items))
    {
      var newSatisfaction := new SatisfactionPoint[|snap.customerSatisfaction|](
        i requires 0 <= i < |snap.customerSatisfaction| => snap.customerSatisfaction[i]);
      assert newSatisfaction[..] == snap.customerSatisfaction;
      MergeSatisfactionInto(newSatisfaction, items);
      customerSatisfaction := newSatisfaction[..];
    }

    /** `uploadFinancialData` with its delayed callback run at once. */
    method UploadFinancialData(data: Option<FinancialUpload>, env: FinancialUploadEnv)
      modifies this
      ensures State() == UploadFinancialDataSpec(old(State()), data, env)
      ensures !isLoading
    {
      var snap := State();
      isLoading := true;
      if data.None? {
        // reading `invoices` of a null payload throws; the handler only clears the flag
        isLoading := false;
        return;
      }
      var up := data.value;
      ghost var r := UploadFinancialDataSpec(snap, data, env);
      ghost var paidTotal := UploadPaidInvoiceTotal(up, env);
      if up.invoices.Some? {
        UploadInvoiceBatch(snap, up.invoices.value, env);
      }
      assert invoices == r.invoices;
      assert salesData == if up.invoices.Some? && paidTotal > 0.0
                          then CreditMonth(snap.salesData, env.month, paidTotal) else snap.salesData;
      assert bills == snap.bills && customerSatisfaction == snap.customerSatisfaction;
      if up.bills.Some? {
        UploadBillBatch(snap, up.bills.value, env);
      }
      assert bills == r.bills && metrics == r.metrics && invoices == r.invoices;
      if up.salesData.Some? {
        UploadSalesSeries(snap, up.salesData.value);
      }
      assert salesData == r.salesData;
      if up.customerSatisfaction.Some? {
        UploadSatisfactionSeries(snap, up.customerSatisfaction.value);
      }
      isLoading := false;
    }
  }
}

/** Properties of the finance store's operations, stated on the net-effect functions
    of `FinanceContext`. */
module FinanceProperties {
  import opened Ids
  import opened FinanceContext

  // ---------------------------------------------------------------- identifiers

  /** `INV-` followed by the counter, zero-padded to at least three digits and never cut. */
  lemma InvoiceIdFormat(n: nat)
    ensures var id := InvoiceId(n);
      |id| == 4 + (if |Decimal(n)| >= 3 then |Decimal(n)| else 3) &&
      id[..4] == "INV-" && AllDigits(id[4..]) && Value(id[4..]) == n &&
      id[|id| - |Decimal(n)|..] == Decimal(n)
  {
    var id := InvoiceId(n);
    assert id[4..] == PadNumber(n, 3);
    PadNumberValue(n, 3);
  }

  lemma BillIdFormat(n: nat)
    ensures var id := BillId(n);
      |id| == 5 + (if |Decimal(n)| >= 3 then |Decimal(n)| else 3) &&
      id[..5] == "BILL-" && AllDigits(id[5..]) && Value(id[5..]) == n &&
      id[|id| - |Decimal(n)|..] == Decimal(n)
  {
    var id := BillId(n);
    assert id[5..] == PadNumber(n, 3);
    PadNumberValue(n, 3);
  }

  /** `TX-<year>-` followed by the counter zero-padded to at least two digits. */
  lemma TaxFilingIdFormat(year: nat, n: nat)
    ensures var id := TaxFilingId(year, n);
      var head := "TX-" + Decimal(year) + "-";
      id[..|head|] == head && AllDigits(id[|head|..]) && Value(id[|head|..]) == n &&
      |id| - |head| == if |Decimal(n)| >= 2 then |Decimal(n)| else 2
  {
    var head := "TX-" + Decimal(year) + "-";
    assert TaxFilingId(year, n)[|head|..] == PadNumber(n, 2);
    PadNumberValue(n, 2);
  }

  /** Upload identifiers depend only on the batch position: the same position gives the same id. */
  lemma UploadIdFormat(prefix: string, index: nat)
    ensures var id := UploadId(prefix, index);
      id[..|prefix|] == prefix && AllDigits(id[|prefix|..]) && Value(id[|prefix|..]) == index + 1 &&
      |id| - |prefix| >= 3
  {
    assert UploadId(prefix, index)[|prefix|..] == PadNumber(index + 1, 3);
    PadNumberValue(index + 1, 3);
  }

  lemma InvoiceIdInjective(a: nat, b: nat)
    requires InvoiceId(a) == InvoiceId(b)
    ensures a == b
  {
    PrefixedPadInjective("INV-", a, b, 3);
  }

  lemma BillIdInjective(a: nat, b: nat)
    requires BillId(a) == BillId(b)
    ensures a == b
  {
    PrefixedPadInjective("BILL-", a, b, 3);
  }

  /** Filing ids with different counters differ even across years: the counter is what follows
      the last '-', and the year's digits hold no '-'. */
  lemma TaxFilingIdInjective(year1: nat, a: nat, year2: nat, b: nat)
    requires TaxFilingId(year1, a) == TaxFilingId(year2, b)
    ensures a == b
  {
    PadNumberValue(a, 2);
    PadNumberValue(b, 2);
    DigitTailsAgree("TX-" + Decimal(year1), PadNumber(a, 2), "TX-" + Decimal(year2), PadNumber(b, 2));
    PadNumberInjective(a, b, 2);
  }

  /** A generated filing id ends in at least two digits. */
  lemma TaxFilingIdEndsInDigits(year: nat, n: nat)
    ensures var id := TaxFilingId(year, n); |id| >= 2 && IsDigit(id[|id| - 2])
  {
    PadNumberValue(n, 2);
    DashBeforeDigits("TX-" + Decimal(year), PadNumber(n, 2));
  }

  /** Each seed filing id has a letter or a '-' in its next-to-last place. */
  lemma SeedTaxFilingIdsEndOtherwise()
    ensures forall i :: 0 <= i < |SeedTaxFilings()| ==>
      var id := SeedTaxFilings()[i].id; |id| >= 2 && !IsDigit(id[|id| - 2])
  {
    var seed := SeedTaxFilings();
    assert seed[0].id[8] == 'Q' && seed[1].id[8] == 'Q' && seed[2].id[11] == '-';
  }

  /** No generated filing id spells one of the seed's ids. */
  lemma TaxFilingIdNotSeed(year: nat, n: nat)
    ensures forall i :: 0 <= i < |SeedTaxFilings()| ==> TaxFilingId(year, n) != SeedTaxFilings()[i].id
  {
    TaxFilingIdEndsInDigits(year, n);
    SeedTaxFilingIdsEndOtherwise();
  }

  // ---------------------------------------------------------------- add operations

  /** `addInvoice` appends exactly one invoice, numbered after the old length, and keeps the
      earlier ones. Its last `setMetrics` only counts the order, even for a paid invoice,
      while a paid invoice still credits the current month's sales. */
  lemma AddInvoiceAppendsOne(s: StoreState, d: InvoiceDraft, month: string)
    ensures |AddInvoiceSpec(s, d, month).invoices| == |s.invoices| + 1
    ensures AddInvoiceSpec(s, d, month).invoices[..|s.invoices|] == s.invoices
    ensures AddInvoiceSpec(s, d, month).invoices[|s.invoices|] == d.WithId(InvoiceId(|s.invoices| + 1))
    ensures Value(AddInvoiceSpec(s, d, month).invoices[|s.invoices|].id[4..]) == |s.invoices| + 1
    ensures AddInvoiceSpec(s, d, month).metrics == s.metrics.(totalOrders := s.metrics.totalOrders + 1)
    ensures AddInvoiceSpec(s, d, month).salesData ==
      (if d.status == Paid then CreditMonth(s.salesData, month, d.amount) else s.salesData)
    ensures AddInvoiceSpec(s, d, month).(invoices := s.invoices, metrics := s.metrics, salesData := s.salesData) == s
  {
    var r := AddInvoiceSpec(s, d, month);
    var n := |s.invoices|;
    assert r.invoices[n].id == InvoiceId(n + 1);
    assert Value(r.invoices[n].id[4..]) == n + 1 by { InvoiceIdFormat(n + 1); }
  }

  lemma AddBillAppendsOne(s: StoreState, d: BillDraft)
    ensures var r := AddBillSpec(s, d);
      |r.bills| == |s.bills| + 1 && r.bills[..|s.bills|] == s.bills &&
      r.bills[|s.bills|] == d.WithId(BillId(|s.bills| + 1)) &&
      Value(r.bills[|s.bills|].id[5..]) == |s.bills| + 1 &&
      r.metrics == (if d.status == Paid then ExpenseMetrics(s.metrics, d.amount) else s.metrics) &&
      r.(bills := s.bills, metrics := s.metrics) == s
  {
    var r := AddBillSpec(s, d);
    var n := |s.bills|;
    assert r.bills[n].id == BillId(n + 1);
    assert Value(r.bills[n].id[5..]) == n + 1 by { BillIdFormat(n + 1); }
  }

  /** `addTaxFiling` appends one filing and changes nothing else, metrics included. */
  lemma AddTaxFilingAppendsOne(s: StoreState, d: TaxFilingDraft, year: nat)
    ensures var r := AddTaxFilingSpec(s, d, year);
      var head := "TX-" + Decimal(year) + "-";
      |r.taxFilings| == |s.taxFilings| + 1 && r.taxFilings[..|s.taxFilings|] == s.taxFilings &&
      r.taxFilings[|s.taxFilings|] == d.WithId(TaxFilingId(year, |s.taxFilings| + 1)) &&
      r.taxFilings[|s.taxFilings|].id[..|head|] == head &&
      Value(r.taxFilings[|s.taxFilings|].id[|head|..]) == |s.taxFilings| + 1 &&
      r.(taxFilings := s.taxFilings) == s
  {
    TaxFilingIdFormat(year, |s.taxFilings| + 1);
  }

  // ---------------------------------------------------------------- status updates

  lemma SetInvoiceStatusShape(invs: seq<Invoice>, id: string, status: PaymentStatus)
    ensures var r := SetInvoiceStatus(invs, id, status);
      |r| == |invs| && InvoiceIds(r) == InvoiceIds(invs) &&
      forall i :: 0 <= i < |r| ==>
        r[i].(status := invs[i].status) == invs[i] &&
        r[i].status == (if invs[i].id == id then status else invs[i].status)
  {
    var r := SetInvoiceStatus(invs, id, status);
    assert InvoiceIds(r) == InvoiceIds(invs);
  }

  lemma SetBillStatusShape(bills: seq<Bill>, id: string, status: PaymentStatus)
    ensures var r := SetBillStatus(bills, id, status);
      |r| == |bills| && BillIds(r) == BillIds(bills) &&
      forall i :: 0 <= i < |r| ==>
        r[i].(status := bills[i].status) == bills[i] &&
        r[i].status == (if bills[i].id == id then status else bills[i].status)
  {
    var r := SetBillStatus(bills, id, status);
    assert BillIds(r) == BillIds(bills);
  }

  lemma SetTaxFilingStatusShape(filings: seq<TaxFiling>, id: string, status: FilingStatus)
    ensures var r := SetTaxFilingStatus(filings, id, status);
      |r| == |filings| && TaxFilingIds(r) == TaxFilingIds(filings) &&
      forall i :: 0 <= i < |r| ==>
        r[i].(status := filings[i].status) == filings[i] &&
        r[i].status == (if filings[i].id == id then status else filings[i].status)
  {
    var r := SetTaxFilingStatus(filings, id, status);
    assert TaxFilingIds(r) == TaxFilingIds(filings);
  }

  /** An id that no invoice carries leaves the whole state as it was. */
  lemma UpdateInvoiceStatusAbsentId(s: StoreState, id: string, status: PaymentStatus, month: string)
    requires id !in InvoiceIds(s.invoices)
    ensures UpdateInvoiceStatusSpec(s, id, status, month) == s
  {
    var r := SetInvoiceStatus(s.invoices, id, status);
    forall i | 0 <= i < |s.invoices| ensures r[i] == s.invoices[i] {
      assert InvoiceIds(s.invoices)[i] == s.invoices[i].id;
    }
    assert r == s.invoices;
  }

  lemma UpdateBillStatusAbsentId(s: StoreState, id: string, status: PaymentStatus)
    requires id !in BillIds(s.bills)
    ensures UpdateBillStatusSpec(s, id, status) == s
  {
    var r := SetBillStatus(s.bills, id, status);
    forall i | 0 <= i < |s.bills| ensures r[i] == s.bills[i] {
      assert BillIds(s.bills)[i] == s.bills[i].id;
    }
    assert r == s.bills;
  }

  lemma UpdateTaxFilingStatusAbsentId(s: StoreState, id: string, status: FilingStatus)
    requires id !in TaxFilingIds(s.taxFilings)
    ensures UpdateTaxFilingStatusSpec(s, id, status) == s
  {
    var r := SetTaxFilingStatus(s.taxFilings, id, status);
    forall i | 0 <= i < |s.taxFilings| ensures r[i] == s.taxFilings[i] {
      assert TaxFilingIds(s.taxFilings)[i] == s.taxFilings[i].id;
    }
    assert r == s.taxFilings;
  }

  /** Updating a filing's status changes only that collection: never metrics. */
  lemma UpdateTaxFilingStatusOnlyFilings(s: StoreState, id: string, status: FilingStatus)
    ensures var r := UpdateTaxFilingStatusSpec(s, id, status);
      r.(taxFilings := s.taxFilings) == s && |r.taxFilings| == |s.taxFilings|
  {
  }

  // ---------------------------------------------------------------- payment rule

  /** The series half of the payment rule: entries labelled with the month gain the amount,
      every other entry and every label stay. */
  lemma CreditMonthEffect(sales: seq<SalesPoint>, month: string, amount: real)
    ensures var r := CreditMonth(sales, month, amount);
      |r| == |sales| && SalesMonths(r) == SalesMonths(sales) &&
      forall j :: 0 <= j < |r| ==>
        r[j].total == sales[j].total + (if sales[j].month == month then amount else 0.0)
  {
    var r := CreditMonth(sales, month, amount);
    assert SalesMonths(r) == SalesMonths(sales);
  }

  /** `updateInvoiceStatus` maps the status onto the invoices with the id, changes metrics
      exactly when its payment rule fires, and then by the amount of the first invoice with
      that id; nothing else changes. */
  lemma UpdateInvoiceStatusPayment(s: StoreState, id: string, status: PaymentStatus, month: string)
    ensures var r := UpdateInvoiceStatusSpec(s, id, status, month);
      var a := FoundInvoiceAmount(s.invoices, id);
      (r.metrics != s.metrics <==> InvoicePaymentFires(s.invoices, id, status)) &&
      (InvoicePaymentFires(s.invoices, id, status) ==>
         r.metrics.totalSales == s.metrics.totalSales + a &&
         r.metrics.totalRevenue == s.metrics.totalRevenue + a &&
         r.metrics.profit == s.metrics.profit + a &&
         r.metrics.completed == s.metrics.completed + 1 &&
         r.metrics.profitMargin == Percent(s.metrics.profit + a, s.metrics.totalRevenue + a) &&
         r.metrics.(totalSales := s.metrics.totalSales, totalRevenue := s.metrics.totalRevenue,
                    profit := s.metrics.profit, completed := s.metrics.completed,
                    profitMargin := s.metrics.profitMargin) == s.metrics &&
         |r.salesData| == |s.salesData| &&
         forall j :: 0 <= j < |r.salesData| ==>
           r.salesData[j].month == s.salesData[j].month &&
           r.salesData[j].total == s.salesData[j].total + (if s.salesData[j].month == month then a else 0.0)) &&
      (!InvoicePaymentFires(s.invoices, id, status) ==> r.salesData == s.salesData) &&
      r.invoices == SetInvoiceStatus(s.invoices, id, status) &&
      r.(invoices := s.invoices, metrics := s.metrics, salesData := s.salesData) == s
  {
    if InvoicePaymentFires(s.invoices, id, status) {
      var a := FoundInvoiceAmount(s.invoices, id);
      var r := UpdateInvoiceStatusSpec(s, id, status, month);
      assert r.metrics.completed == s.metrics.completed + 1;
      CreditMonthEffect(s.salesData, month, a);
      forall j | 0 <= j < |r.salesData| ensures r.salesData[j].month == s.salesData[j].month {
        assert SalesMonths(r.salesData)[j] == r.salesData[j].month;
      }
    }
  }

  /** Marking an invoice paid a second time applies nothing more: the first call already
      made the found invoice paid. */
  lemma PayInvoiceTwiceAppliesOnce(s: StoreState, id: string, month: string)
    ensures var s1 := UpdateInvoiceStatusSpec(s, id, Paid, month);
      !InvoicePaymentFires(s1.invoices, id, Paid) &&
      UpdateInvoiceStatusSpec(s1, id, Paid, month) == s1
  {
    var s1 := UpdateInvoiceStatusSpec(s, id, Paid, month);
    SetInvoiceStatusShape(s.invoices, id, Paid);
    var k := FirstIndexOf(InvoiceIds(s1.invoices), id);
    if k >= 0 {
      assert InvoiceIds(s1.invoices)[k] == s1.invoices[k].id;
    }
    var twice := SetInvoiceStatus(s1.invoices, id, Paid);
    SetInvoiceStatusShape(s1.invoices, id, Paid);
    assert twice == s1.invoices;
  }

  /** Paying a bill a second time records no second expense. */
  lemma PayBillTwiceAppliesOnce(s: StoreState, id: string)
    ensures var s1 := UpdateBillStatusSpec(s, id, Paid);
      !BillExpenseFires(s1.bills, id, Paid) && UpdateBillStatusSpec(s1, id, Paid) == s1
  {
    var s1 := UpdateBillStatusSpec(s, id, Paid);
    SetBillStatusShape(s.bills, id, Paid);
    var k := FirstIndexOf(BillIds(s1.bills), id);
    if k >= 0 {
      assert BillIds(s1.bills)[k] == s1.bills[k].id;
    }
    var twice := SetBillStatus(s1.bills, id, Paid);
    SetBillStatusShape(s1.bills, id, Paid);
    assert twice == s1.bills;
  }

  /** `updateBillStatus` records an expense exactly when it moves the first bill with that id
      from not paid to paid; revenue never moves. */
  lemma UpdateBillStatusExpense(s: StoreState, id: string, status: PaymentStatus)
    ensures var r := UpdateBillStatusSpec(s, id, status);
      var a := FoundBillAmount(s.bills, id);
      r.metrics.totalRevenue == s.metrics.totalRevenue &&
      (BillExpenseFires(s.bills, id, status) ==>
         r.metrics.expenses == s.metrics.expenses + a && r.metrics.profit == s.metrics.profit - a &&
         r.metrics.profitMargin == Percent(s.metrics.profit - a, s.metrics.totalRevenue)) &&
      (!BillExpenseFires(s.bills, id, status) ==> r.metrics == s.metrics) &&
      r.(bills := s.bills, metrics := s.metrics) == s
  {
  }

  // ---------------------------------------------------------------- uploads

  /** Upload batches fill missing or falsy fields with the defaults, and number their
      elements by batch position only. */
  lemma TaxFilingBatchDefaults(raws: seq<RawTaxFiling>, env: TaxUploadEnv)
    ensures var b := TaxFilingBatch(raws, env);
      |b| == |raws| && Distinct(TaxFilingIds(b)) &&
      forall i :: 0 <= i < |b| ==>
        b[i].id == UploadId("TX-UPLOAD-", i) &&
        b[i].taxType == (if raws[i].taxType != "" then raws[i].taxType else "Income Tax") &&
        b[i].period == (if raws[i].period != "" then raws[i].period
                        else "Q" + Decimal(env.quarterDraw(i) + 1) + " " + Decimal(env.year)) &&
        b[i].dueDate == (if raws[i].dueDate != "" then raws[i].dueDate else env.today) &&
        (raws[i].amount != 0.0 ==> b[i].amount == raws[i].amount) &&
        (raws[i].amount == 0.0 ==> 1000.0 <= b[i].amount < 6000.0 && b[i].amount == b[i].amount.Floor as real) &&
        b[i].status == (if raws[i].status.Some? then raws[i].status.value else FilingStatus.Pending)
  {
    var b := TaxFilingBatch(raws, env);
    forall i, j | 0 <= i < j < |b| ensures TaxFilingIds(b)[i] != TaxFilingIds(b)[j] {
      UploadIdsDiffer("TX-UPLOAD-", i, j);
    }
  }

  lemma InvoiceBatchDefaults(raws: seq<RawInvoice>, env: FinancialUploadEnv)
    ensures var b := InvoiceBatch(raws, env);
      |b| == |raws| && Distinct(InvoiceIds(b)) &&
      forall i :: 0 <= i < |b| ==>
        b[i].id == UploadId("INV-UPLOAD-", i) &&
        b[i].client == (if raws[i].client != "" then raws[i].client else "New Client") &&
        b[i].issueDate == (if raws[i].issueDate != "" then raws[i].issueDate else env.today) &&
        b[i].dueDate == (if raws[i].dueDate != "" then raws[i].dueDate else env.dueIn15Days) &&
        (raws[i].amount != 0.0 ==> b[i].amount == raws[i].amount) &&
        (raws[i].amount == 0.0 ==> 500.0 <= b[i].amount < 5500.0 && b[i].amount == b[i].amount.Floor as real) &&
        b[i].status == (if raws[i].status.Some? then raws[i].status.value else PaymentStatus.Pending)
  {
    var b := InvoiceBatch(raws, env);
    forall i, j | 0 <= i < j < |b| ensures InvoiceIds(b)[i] != InvoiceIds(b)[j] {
      UploadIdsDiffer("INV-UPLOAD-", i, j);
    }
  }

  lemma BillBatchDefaults(raws: seq<RawBill>, env: FinancialUploadEnv)
    ensures var b := BillBatch(raws, env);
      |b| == |raws| && Distinct(BillIds(b)) &&
      forall i :: 0 <= i < |b| ==>
        b[i].id == UploadId("BILL-UPLOAD-", i) &&
        b[i].name == (if raws[i].name != "" then raws[i].name else "New Bill") &&
        b[i].category == (if raws[i].category != "" then raws[i].category else "Utilities") &&
        b[i].dueDate == (if raws[i].dueDate != "" then raws[i].dueDate else env.dueIn15Days) &&
        (raws[i].amount != 0.0 ==> b[i].amount == raws[i].amount) &&
        (raws[i].amount == 0.0 ==> 50.0 <= b[i].amount < 550.0 && b[i].amount == b[i].amount.Floor as real) &&
        b[i].status == (if raws[i].status.Some? then raws[i].status.value else PaymentStatus.Pending)
  {
    var b := BillBatch(raws, env);
    forall i, j | 0 <= i < j < |b| ensures BillIds(b)[i] != BillIds(b)[j] {
      UploadIdsDiffer("BILL-UPLOAD-", i, j);
    }
  }

  lemma UploadIdsDiffer(prefix: string, i: nat, j: nat)
    requires i != j
    ensures UploadId(prefix, i) != UploadId(prefix, j)
  {
    if UploadId(prefix, i) == UploadId(prefix, j) {
      PrefixedPadInjective(prefix, i + 1, j + 1, 3);
    }
  }

  /** `uploadTaxData` appends its batch after the existing filings, applies the expense rule
      exactly when `totalTaxes` is truthy, and always ends with the loading flag cleared. */
  lemma UploadTaxDataEffect(s: StoreState, data: Option<TaxUpload>, env: TaxUploadEnv)
    ensures var r := UploadTaxDataSpec(s, data, env);
      !r.isLoading &&
      r.taxFilings[..|s.taxFilings|] == s.taxFilings &&
      (data.Some? && data.value.taxFilings.Some? ==>
         r.taxFilings[|s.taxFilings|..] == TaxFilingBatch(data.value.taxFilings.value, env)) &&
      (data.None? || data.value.taxFilings.None? ==> r.taxFilings == s.taxFilings) &&
      r.metrics == (if data.Some? && data.value.totalTaxes != 0.0
                    then ExpenseMetrics(s.metrics, data.value.totalTaxes) else s.metrics) &&
      r.(taxFilings := s.taxFilings, metrics := s.metrics, isLoading := s.isLoading) == s
  {
  }

  /** Net metrics of `uploadFinancialData`: with a positive paid-bill total only the expense
      rule survives (no order or completion counted, no revenue); otherwise an invoices array
      only adds to the order and completion counters, and with neither the metrics stay. */
  lemma UploadFinancialDataMetrics(s: StoreState, data: Option<FinancialUpload>, env: FinancialUploadEnv)
    ensures var r := UploadFinancialDataSpec(s, data, env);
      !r.isLoading &&
      r.metrics.totalRevenue == s.metrics.totalRevenue &&
      r.metrics.totalSales == s.metrics.totalSales &&
      (data.Some? && UploadPaidBillTotal(data.value, env) > 0.0 ==>
         r.metrics == ExpenseMetrics(s.metrics, UploadPaidBillTotal(data.value, env)) &&
         r.metrics.totalOrders == s.metrics.totalOrders && r.metrics.completed == s.metrics.completed &&
         r.metrics.newCustomers == s.metrics.newCustomers) &&
      (data.Some? && UploadPaidBillTotal(data.value, env) <= 0.0 && data.value.invoices.Some? ==>
         var invs := data.value.invoices.value;
         r.metrics == s.metrics.(totalOrders := s.metrics.totalOrders + |invs|,
                                 completed := s.metrics.completed + |InvoicesWithStatus(InvoiceBatch(invs, env), Paid)|)) &&
      (data.None? || (UploadPaidBillTotal(data.value, env) <= 0.0 && data.value.invoices.None?) ==>
         r.metrics == s.metrics) &&
      r.targetVsReality == s.targetVsReality && r.visitorData == s.visitorData && r.taxFilings == s.taxFilings
  {
  }

  /** The collections after `uploadFinancialData`: each batch is appended, an uploaded sales
      series replaces the payment-rule credit of the same upload, an uploaded satisfaction
      series is merged in, and whatever the payload does not carry stays as it was. */
  lemma UploadFinancialDataSales(s: StoreState, data: Option<FinancialUpload>, env: FinancialUploadEnv)
    ensures var r := UploadFinancialDataSpec(s, data, env);
      (data.Some? && data.value.salesData.Some? ==>
         r.salesData == MergeSales(s.salesData, data.value.salesData.value)) &&
      (data.Some? && data.value.salesData.None? && UploadPaidInvoiceTotal(data.value, env) > 0.0 ==>
         r.salesData == CreditMonth(s.salesData, env.month, UploadPaidInvoiceTotal(data.value, env))) &&
      (data.Some? && data.value.salesData.None? && UploadPaidInvoiceTotal(data.value, env) <= 0.0 ==>
         r.salesData == s.salesData) &&
      (data.Some? && data.value.customerSatisfaction.Some? ==>
         r.customerSatisfaction == MergeSatisfaction(s.customerSatisfaction, data.value.customerSatisfaction.value)) &&
      (data.Some? && data.value.customerSatisfaction.None? ==> r.customerSatisfaction == s.customerSatisfaction) &&
      (data.Some? ==> r.invoices[..|s.invoices|] == s.invoices && r.bills[..|s.bills|] == s.bills) &&
      (data.Some? && data.value.invoices.Some? ==>
         r.invoices[|s.invoices|..] == InvoiceBatch(data.value.invoices.value, env)) &&
      (data.Some? && data.value.invoices.None? ==> r.invoices == s.invoices) &&
      (data.Some? && data.value.bills.Some? ==>
         r.bills[|s.bills|..] == BillBatch(data.value.bills.value, env)) &&
      (data.Some? && data.value.bills.None? ==> r.bills == s.bills) &&
      r.(invoices := s.invoices, bills := s.bills, metrics := s.metrics, salesData := s.salesData,
         customerSatisfaction := s.customerSatisfaction, isLoading := s.isLoading) == s &&
      (data.None? ==> r == s.(isLoading := false))
  {
  }

  /** Two uploads of the same non-empty invoice batch give two invoices with one id. */
  lemma RepeatedUploadRepeatsIds(s: StoreState, data: Option<FinancialUpload>, env: FinancialUploadEnv)
    requires data.Some? && data.value.invoices.Some? && |data.value.invoices.value| > 0
    ensures var s2 := UploadFinancialDataSpec(UploadFinancialDataSpec(s, data, env), data, env);
      var n := |data.value.invoices.value|;
      |s2.invoices| == |s.invoices| + 2 * n &&
      s2.invoices[|s.invoices|].id == s2.invoices[|s.invoices| + n].id &&
      !Distinct(InvoiceIds(s2.invoices))
  {
    var s1 := UploadFinancialDataSpec(s, data, env);
    var s2 := UploadFinancialDataSpec(s1, data, env);
    var raws := data.value.invoices.value;
    var b := InvoiceBatch(raws, env);
    var n := |raws|;
    assert s2.invoices == s.invoices + b + b;
    var i, j := |s.invoices|, |s.invoices| + n;
    assert s2.invoices[i] == b[0] && s2.invoices[j] == b[0];
    assert InvoiceIds(s2.invoices)[i] == InvoiceIds(s2.invoices)[j];
  }

  // ---------------------------------------------------------------- series merges

  /** Sum of the uploaded totals for one month, in upload order. */
  function MonthTotal(items: seq<SalesItem>, month: string): real
    decreases |items|
  {
    if items == [] then 0.0
    else MonthTotal(items[..|items| - 1], month) +
         (if items[|items| - 1].month == month then items[|items| - 1].total else 0.0)
  }

  /** After the sales merge, the first entry of each month holds its old total plus every
      uploaded total for that month; every other entry is untouched. */
  lemma {:induction false} MergeSalesAt(series: seq<SalesPoint>, items: seq<SalesItem>, j: nat)
    requires j < |series|
    ensures var first := FirstIndexOf(SalesMonths(series), series[j].month);
      MergeSales(series, items)[j] ==
        if first == j then series[j].(total := series[j].total + MonthTotal(items, series[j].month))
        else series[j]
    decreases |items|
  {
    var months := SalesMonths(series);
    assert months[j] == series[j].month;
    if items != [] {
      var p := items[..|items| - 1];
      var last := items[|items| - 1];
      var prev := MergeSales(series, p);
      MergeSalesAt(series, p, j);
      var k := FirstIndexOf(SalesMonths(prev), last.month);
      if k >= 0 {
        assert SalesMonths(prev)[k] == prev[k].month;
        assert months[k] == series[k].month;
      }
    }
  }

  /** An uploaded month that no entry carries changes nothing. */
  lemma MergeSalesIgnoresUnmatched(series: seq<SalesPoint>, items: seq<SalesItem>, item: SalesItem)
    requires item.month !in SalesMonths(series)
    ensures MergeSales(series, items + [item]) == MergeSales(series, items)
  {
    assert (items + [item])[..|items|] == items;
  }

  /** A value averaged, in upload order, with every truthy uploaded value for one month. */
  function MonthAverage(start: real, items: seq<SatisfactionItem>, month: string): real
    decreases |items|
  {
    if items == [] then start
    else
      var prev := MonthAverage(start, items[..|items| - 1], month);
      var last := items[|items| - 1];
      if last.month == month && last.satisfaction != 0.0 then (prev + last.satisfaction) / 2.0 else prev
  }

  /** After the satisfaction merge, the first entry of each month holds its old value averaged
      in turn with each truthy uploaded value for that month; every other entry is untouched. */
  lemma {:induction false} MergeSatisfactionAt(series: seq<SatisfactionPoint>, items: seq<SatisfactionItem>, j: nat)
    requires j < |series|
    ensures var first := FirstIndexOf(SatisfactionMonths(series), series[j].month);
      MergeSatisfaction(series, items)[j] ==
        if first == j
        then series[j].(satisfaction := MonthAverage(series[j].satisfaction, items, series[j].month))
        else series[j]
    decreases |items|
  {
    var months := SatisfactionMonths(series);
    assert months[j] == series[j].month;
    if items != [] {
      var p := items[..|items| - 1];
      var last := items[|items| - 1];
      var prev := MergeSatisfaction(series, p);
      MergeSatisfactionAt(series, p, j);
      var k := FirstIndexOf(SatisfactionMonths(prev), last.month);
      if k >= 0 {
        assert SatisfactionMonths(prev)[k] == prev[k].month;
        assert months[k] == series[k].month;
      }
    }
  }

  lemma MergeSatisfactionIgnoresUnmatched(series: seq<SatisfactionPoint>, items: seq<SatisfactionItem>,
                                          item: SatisfactionItem)
    requires item.month !in SatisfactionMonths(series) || item.satisfaction == 0.0
    ensures MergeSatisfaction(series, items + [item]) == MergeSatisfaction(series, items)
  {
    assert (items + [item])[..|items|] == items;
  }

  // ---------------------------------------------------------------- histories of operations

  predicate Distinct<T(==)>(xs: seq<T>) {
    forall i, j :: 0 <= i < j < |xs| ==> xs[i] != xs[j]
  }

  /** One call of an exposed store operation, with the clock and random values it reads. */
  datatype Op =
    | AddInvoiceOp(invoice: InvoiceDraft, invoiceMonth: string)
    | AddTaxFilingOp(filing: TaxFilingDraft, year: nat)
    | AddBillOp(bill: BillDraft)
    | UpdateInvoiceStatusOp(invoiceId: string, invoiceStatus: PaymentStatus, paymentMonth: string)
    | UpdateTaxFilingStatusOp(filingId: string, filingStatus: FilingStatus)
    | UpdateBillStatusOp(billId: string, billStatus: PaymentStatus)
    | UploadTaxDataOp(taxData: Option<TaxUpload>, taxEnv: TaxUploadEnv)
    | UploadFinancialDataOp(financialData: Option<FinancialUpload>, env: FinancialUploadEnv)

  function Step(s: StoreState, op: Op): StoreState
  {
    match op
    case AddInvoiceOp(d, month) => AddInvoiceSpec(s, d, month)
    case AddTaxFilingOp(d, year) => AddTaxFilingSpec(s, d, year)
    case AddBillOp(d) => AddBillSpec(s, d)
    case UpdateInvoiceStatusOp(id, st, month) => UpdateInvoiceStatusSpec(s, id, st, month)
    case UpdateTaxFilingStatusOp(id, st) => UpdateTaxFilingStatusSpec(s, id, st)
    case UpdateBillStatusOp(id, st) => UpdateBillStatusSpec(s, id, st)
    case UploadTaxDataOp(data, env) => UploadTaxDataSpec(s, data, env)
    case UploadFinancialDataOp(data, env) => UploadFinancialDataSpec(s, data, env)
  }

  function Run(s: StoreState, ops: seq<Op>): StoreState
    decreases |ops|
  {
    if ops == [] then s else Run(Step(s, ops[0]), ops[1..])
  }

  /** The seed metrics satisfy `profit == totalRevenue - expenses`. */
  lemma SeedProfitIdentity()
    ensures ProfitIdentity(Seed().metrics)
  {
  }

  /** Every operation keeps `profit == totalRevenue - expenses`. */
  lemma StepKeepsProfitIdentity(s: StoreState, op: Op)
    requires ProfitIdentity(s.metrics)
    ensures ProfitIdentity(Step(s, op).metrics)
  {
  }

  /** After an operation changes profit or revenue, the stored margin is the margin of the
      new profit over the new revenue. */
  lemma StepMarginConsistent(s: StoreState, op: Op)
    ensures var m := Step(s, op).metrics;
      m.profit != s.metrics.profit || m.totalRevenue != s.metrics.totalRevenue ==> MarginConsistent(m)
  {
  }

  /** The seed's stored margin 72.7 is a rounded figure, not the exact margin of its profit
      over its revenue; the first operation that touches profit or revenue replaces it. */
  lemma SeedMarginIsRounded()
    ensures Seed().metrics.profitMargin.Finite?
    ensures !MarginConsistent(Seed().metrics)
  {
    assert 72.7 * 45231.89 != 32886.89 * 100.0;
  }

  /** With no revenue, a paid bill leaves a margin that is not a finite number: an infinity
      when profit stays positive, NaN when it drops to exactly zero. */
  lemma PaidBillAtZeroRevenue(s: StoreState, d: BillDraft)
    requires s.metrics.totalRevenue == 0.0 && d.status == Paid
    ensures var m := AddBillSpec(s, d).metrics;
      !m.profitMargin.Finite? &&
      (m.profit > 0.0 <==> m.profitMargin == PositiveInfinity) &&
      (m.profit < 0.0 <==> m.profitMargin == NegativeInfinity) &&
      (m.profit == 0.0 <==> m.profitMargin == NotANumber)
  {
  }

  lemma {:induction false} RunKeepsProfitIdentity(s: StoreState, ops: seq<Op>)
    requires ProfitIdentity(s.metrics)
    ensures ProfitIdentity(Run(s, ops).metrics)
    decreases |ops|
  {
    if ops != [] {
      StepKeepsProfitIdentity(s, ops[0]);
      RunKeepsProfitIdentity(Step(s, ops[0]), ops[1..]);
    }
  }

  /** From the seed, every history of operations keeps the profit identity. */
  lemma SeedHistoryProfitIdentity(ops: seq<Op>)
    ensures ProfitIdentity(Run(Seed(), ops).metrics)
  {
    SeedProfitIdentity();
    RunKeepsProfitIdentity(Seed(), ops);
  }

  // ---------------------------------------------------------------- identifier uniqueness

  predicate SequentialInvoiceIds(invs: seq<Invoice>) {
    forall i :: 0 <= i < |invs| ==> invs[i].id == InvoiceId(i + 1)
  }

  predicate SequentialBillIds(bills: seq<Bill>) {
    forall i :: 0 <= i < |bills| ==> bills[i].id == BillId(i + 1)
  }

  predicate IsUpload(op: Op) {
    op.UploadTaxDataOp? || op.UploadFinancialDataOp?
  }

  lemma SequentialIdsDistinct(invs: seq<Invoice>, bills: seq<Bill>)
    requires SequentialInvoiceIds(invs) && SequentialBillIds(bills)
    ensures Distinct(InvoiceIds(invs)) && Distinct(BillIds(bills))
  {
    forall i, j | 0 <= i < j < |invs| ensures InvoiceIds(invs)[i] != InvoiceIds(invs)[j] {
      if InvoiceId(i + 1) == InvoiceId(j + 1) {
        InvoiceIdInjective(i + 1, j + 1);
      }
    }
    forall i, j | 0 <= i < j < |bills| ensures BillIds(bills)[i] != BillIds(bills)[j] {
      if BillId(i + 1) == BillId(j + 1) {
        BillIdInjective(i + 1, j + 1);
      }
    }
  }

  lemma AppendKeepsSequentialInvoiceIds(invs: seq<Invoice>, x: Invoice)
    requires SequentialInvoiceIds(invs) && x.id == InvoiceId(|invs| + 1)
    ensures SequentialInvoiceIds(invs + [x])
  {
    var r := invs + [x];
    forall i | 0 <= i < |r| ensures r[i].id == InvoiceId(i + 1) {
      if i < |invs| {
        assert r[i] == invs[i];
      }
    }
  }

  lemma AppendKeepsSequentialBillIds(bills: seq<Bill>, x: Bill)
    requires SequentialBillIds(bills) && x.id == BillId(|bills| + 1)
    ensures SequentialBillIds(bills + [x])
  {
    var r := bills + [x];
    forall i | 0 <= i < |r| ensures r[i].id == BillId(i + 1) {
      if i < |bills| {
        assert r[i] == bills[i];
      }
    }
  }

  lemma SetStatusKeepsSequentialInvoiceIds(invs: seq<Invoice>, id: string, status: PaymentStatus)
    requires SequentialInvoiceIds(invs)
    ensures SequentialInvoiceIds(SetInvoiceStatus(invs, id, status))
  {
  }

  lemma SetStatusKeepsSequentialBillIds(bills: seq<Bill>, id: string, status: PaymentStatus)
    requires SequentialBillIds(bills)
    ensures SequentialBillIds(SetBillStatus(bills, id, status))
  {
  }

  /** A filing id of the form `TX-<year>-<n padded to two digits>` for some year. */
  ghost predicate IsTaxFilingIdFor(id: string, n: nat) {
    exists year: nat :: id == TaxFilingId(year, n)
  }

  /** The seed's filings keep their ids, and each later filing carries its 1-based position as
      counter. */
  ghost predicate SequentialTaxFilingIds(filings: seq<TaxFiling>) {
    |filings| >= |SeedTaxFilings()| &&
    (forall i :: 0 <= i < |SeedTaxFilings()| ==> filings[i].id == SeedTaxFilings()[i].id) &&
    (forall i :: |SeedTaxFilings()| <= i < |filings| ==> IsTaxFilingIdFor(filings[i].id, i + 1))
  }

  lemma SequentialTaxFilingIdsDistinct(filings: seq<TaxFiling>)
    requires SequentialTaxFilingIds(filings)
    ensures Distinct(TaxFilingIds(filings))
  {
    var seed := SeedTaxFilings();
    var ids := TaxFilingIds(filings);
    forall i, j | 0 <= i < j < |filings| ensures ids[i] != ids[j] {
      if j < |seed| {
        assert seed[0].id != seed[1].id && seed[0].id != seed[2].id && seed[1].id != seed[2].id;
      } else {
        var yj: nat :| filings[j].id == TaxFilingId(yj, j + 1);
        if i < |seed| {
          TaxFilingIdNotSeed(yj, j + 1);
        } else {
          var yi: nat :| filings[i].id == TaxFilingId(yi, i + 1);
          if filings[i].id == filings[j].id {
            TaxFilingIdInjective(yi, i + 1, yj, j + 1);
          }
        }
      }
    }
  }

  lemma AppendKeepsSequentialTaxFilingIds(filings: seq<TaxFiling>, x: TaxFiling, year: nat)
    requires SequentialTaxFilingIds(filings) && x.id == TaxFilingId(year, |filings| + 1)
    ensures SequentialTaxFilingIds(filings + [x])
  {
    var r := filings + [x];
    forall i | 0 <= i < |SeedTaxFilings()| ensures r[i].id == SeedTaxFilings()[i].id {
      assert r[i] == filings[i];
    }
    forall i | |SeedTaxFilings()| <= i < |r| ensures IsTaxFilingIdFor(r[i].id, i + 1) {
      if i < |filings| {
        assert r[i] == filings[i];
      } else {
        assert r[i].id == TaxFilingId(year, i + 1);
      }
    }
  }

  lemma SetStatusKeepsSequentialTaxFilingIds(filings: seq<TaxFiling>, id: string, status: FilingStatus)
    requires SequentialTaxFilingIds(filings)
    ensures SequentialTaxFilingIds(SetTaxFilingStatus(filings, id, status))
  {
    var r := SetTaxFilingStatus(filings, id, status);
    assert forall i :: 0 <= i < |r| ==> r[i].id == filings[i].id;
  }

  lemma StepKeepsSequentialTaxFilingIds(s: StoreState, op: Op)
    requires !IsUpload(op)
    requires SequentialTaxFilingIds(s.taxFilings)
    ensures SequentialTaxFilingIds(Step(s, op).taxFilings)
  {
    match op
    case AddTaxFilingOp(d, year) =>
      AppendKeepsSequentialTaxFilingIds(s.taxFilings, d.WithId(TaxFilingId(year, |s.taxFilings| + 1)), year);
    case UpdateTaxFilingStatusOp(id, st) =>
      SetStatusKeepsSequentialTaxFilingIds(s.taxFilings, id, st);
    case AddInvoiceOp(d, month) =>
      assert AddInvoiceSpec(s, d, month).taxFilings == s.taxFilings;
    case AddBillOp(d) =>
      assert AddBillSpec(s, d).taxFilings == s.taxFilings;
    case UpdateInvoiceStatusOp(id, st, month) =>
      assert UpdateInvoiceStatusSpec(s, id, st, month).taxFilings == s.taxFilings;
    case UpdateBillStatusOp(id, st) =>
      assert UpdateBillStatusSpec(s, id, st).taxFilings == s.taxFilings;
  }

  lemma {:induction false} RunKeepsSequentialTaxFilingIds(s: StoreState, ops: seq<Op>)
    requires forall k :: 0 <= k < |ops| ==> !IsUpload(ops[k])
    requires SequentialTaxFilingIds(s.taxFilings)
    ensures SequentialTaxFilingIds(Run(s, ops).taxFilings)
    decreases |ops|
  {
    if ops != [] {
      StepKeepsSequentialTaxFilingIds(s, ops[0]);
      RunKeepsSequentialTaxFilingIds(Step(s, ops[0]), ops[1..]);
    }
  }

  lemma StepKeepsSequentialIds(s: StoreState, op: Op)
    requires !IsUpload(op)
    requires SequentialInvoiceIds(s.invoices) && SequentialBillIds(s.bills)
    ensures SequentialInvoiceIds(Step(s, op).invoices) && SequentialBillIds(Step(s, op).bills)
  {
    match op
    case AddInvoiceOp(d, month) =>
      AppendKeepsSequentialInvoiceIds(s.invoices, d.WithId(InvoiceId(|s.invoices| + 1)));
      assert AddInvoiceSpec(s, d, month).bills == s.bills;
    case AddBillOp(d) =>
      AppendKeepsSequentialBillIds(s.bills, d.WithId(BillId(|s.bills| + 1)));
      assert AddBillSpec(s, d).invoices == s.invoices;
    case UpdateInvoiceStatusOp(id, st, month) =>
      SetStatusKeepsSequentialInvoiceIds(s.invoices, id, st);
      assert UpdateInvoiceStatusSpec(s, id, st, month).bills == s.bills;
    case UpdateBillStatusOp(id, st) =>
      SetStatusKeepsSequentialBillIds(s.bills, id, st);
      assert UpdateBillStatusSpec(s, id, st).invoices == s.invoices;
    case AddTaxFilingOp(d, year) =>
      assert AddTaxFilingSpec(s, d, year).invoices == s.invoices;
      assert AddTaxFilingSpec(s, d, year).bills == s.bills;
    case UpdateTaxFilingStatusOp(id, st) =>
      assert UpdateTaxFilingStatusSpec(s, id, st).invoices == s.invoices;
      assert UpdateTaxFilingStatusSpec(s, id, st).bills == s.bills;
  }

  lemma {:induction false} RunKeepsSequentialIds(s: StoreState, ops: seq<Op>)
    requires forall k :: 0 <= k < |ops| ==> !IsUpload(ops[k])
    requires SequentialInvoiceIds(s.invoices) && SequentialBillIds(s.bills)
    ensures SequentialInvoiceIds(Run(s, ops).invoices) && SequentialBillIds(Run(s, ops).bills)
    decreases |ops|
  {
    if ops != [] {
      StepKeepsSequentialIds(s, ops[0]);
      RunKeepsSequentialIds(Step(s, ops[0]), ops[1..]);
    }
  }

  /** The counters 1 to 5 padded to three digits, as the seed ids spell them. */
  lemma SmallPads()
    ensures PadNumber(1, 3) == "001" && PadNumber(2, 3) == "002" && PadNumber(3, 3) == "003" &&
            PadNumber(4, 3) == "004" && PadNumber(5, 3) == "005"
  {
    assert Decimal(1) == "1" && Decimal(2) == "2" && Decimal(3) == "3" && Decimal(4) == "4" && Decimal(5) == "5";
    assert Zeros(2) == "00";
  }

  lemma SeedIdsSequential()
    ensures SequentialInvoiceIds(SeedInvoices()) && SequentialBillIds(SeedBills())
  {
    SmallPads();
  }

  /** Without uploads, invoice, bill and tax filing ids stay pairwise distinct from the seed on,
      whatever years the clock shows. */
  lemma SeedHistoryIdsDistinct(ops: seq<Op>)
    requires forall k :: 0 <= k < |ops| ==> !IsUpload(ops[k])
    ensures Distinct(InvoiceIds(Run(Seed(), ops).invoices)) && Distinct(BillIds(Run(Seed(), ops).bills))
    ensures Distinct(TaxFilingIds(Run(Seed(), ops).taxFilings))
  {
    SeedIdsSequential();
    RunKeepsSequentialIds(Seed(), ops);
    SequentialIdsDistinct(Run(Seed(), ops).invoices, Run(Seed(), ops).bills);
    RunKeepsSequentialTaxFilingIds(Seed(), ops);
    SequentialTaxFilingIdsDistinct(Run(Seed(), ops).taxFilings);
  }

  // ---------------------------------------------------------------- scenarios on the seed data

  /** Adding a paid 60.00 "Gas" bill to the seed gives it id BILL-006, charges the expense and
      recomputes the margin against the unchanged revenue. */
  lemma SeedAddPaidGasBill()
    ensures var r := AddBillSpec(Seed(), BillDraft("Gas", "Utilities", "01/08/2023", 60.0, Paid));
      |r.bills| == 6 && r.bills[5].id == "BILL-006" && r.bills[5].amount == 60.0 &&
      r.metrics.expenses == 12405.0 && r.metrics.profit == 32826.89 &&
      r.metrics.totalRevenue == 45231.89 &&
      r.metrics.profitMargin == Finite(32826.89 / 45231.89 * 100.0)
  {
    assert Decimal(6) == "6";
    assert Zeros(2) == "00";
  }

  /** Paying the seed's pending invoice INV-002 (2500.00) credits sales, revenue and profit with
      its amount, counts one more completed order and credits the month's sales entry. */
  lemma SeedPayInvoice002(month: string)
    ensures var r := UpdateInvoiceStatusSpec(Seed(), "INV-002", Paid, month);
      r.invoices[1].status == Paid &&
      r.metrics.totalSales == 3500.0 && r.metrics.totalRevenue == 47731.89 &&
      r.metrics.profit == 35386.89 && r.metrics.completed == 6 && r.metrics.expenses == 12345.0 &&
      r.salesData == CreditMonth(SeedSalesData(), month, 2500.0)
  {
    var ids := InvoiceIds(SeedInvoices());
    assert ids[0] == "INV-001" && ids[1] == "INV-002";
    assert FirstIndexOf(ids, "INV-002") == 1;
  }
}

/** The bills page: its statistics over the store's bills, the add-bill form and the
    "Pay Now" action. */
module BillsPage {
  import opened FinanceContext

  // ---------------------------------------------------------------- statistics

  /** `total > 0 ? part / total * 100 : 0`. */
  function Percentage(part: real, total: real): real {
    if total > 0.0 then part / total * 100.0 else 0.0
  }

  datatype BillStats = BillStats(
    totalBillAmount: real,
    paidBillAmount: real,
    pendingBillAmount: real,
    overdueBillAmount: real,
    paidPercentage: real,
    pendingPercentage: real,
    overduePercentage: real)

  function Stats(bills: seq<Bill>): BillStats {
    var total := BillAmountTotal(bills);
    var paid := BillAmountTotal(BillsWithStatus(bills, Paid));
    var pending := BillAmountTotal(BillsWithStatus(bills, PaymentStatus.Pending));
    var overdue := BillAmountTotal(BillsWithStatus(bills, PaymentStatus.Overdue));
    BillStats(total, paid, pending, overdue,
              Percentage(paid, total), Percentage(pending, total), Percentage(overdue, total))
  }

  /** Every bill is in exactly one status bucket, so the three bucket sums add up to the total. */
  lemma {:induction false} BucketsPartitionTotal(bills: seq<Bill>)
    ensures BillAmountTotal(BillsWithStatus(bills, Paid)) +
            BillAmountTotal(BillsWithStatus(bills, PaymentStatus.Pending)) +
            BillAmountTotal(BillsWithStatus(bills, PaymentStatus.Overdue)) == BillAmountTotal(bills)
  {
    if bills != [] {
      BucketsPartitionTotal(bills[1..]);
      BucketTotalSplits(bills[0], bills[1..], Paid);
      BucketTotalSplits(bills[0], bills[1..], PaymentStatus.Pending);
      BucketTotalSplits(bills[0], bills[1..], PaymentStatus.Overdue);
    }
  }

  lemma BucketTotalSplits(b: Bill, rest: seq<Bill>, status: PaymentStatus)
    ensures BillAmountTotal(BillsWithStatus([b] + rest, status)) ==
            (if b.status == status then b.amount else 0.0) + BillAmountTotal(BillsWithStatus(rest, status))
  {
    assert ([b] + rest)[1..] == rest;
    var head: seq<Bill> := if b.status == status then [b] else [];
    BillAmountTotalAppend(head, BillsWithStatus(rest, status));
  }

  lemma {:induction false} BillAmountTotalAppend(xs: seq<Bill>, ys: seq<Bill>)
    ensures BillAmountTotal(xs + ys) == BillAmountTotal(xs) + BillAmountTotal(ys)
    decreases |xs|
  {
    if xs == [] {
      assert xs + ys == ys;
    } else {
      assert (xs + ys)[1..] == xs[1..] + ys;
      BillAmountTotalAppend(xs[1..], ys);
    }
  }

  /** With no positive total every percentage is 0; otherwise each is its bucket's share of
      the total and the three add up to 100. */
  lemma PercentagesSumTo100(bills: seq<Bill>)
    ensures var st := Stats(bills);
      (st.totalBillAmount <= 0.0 ==>
         st.paidPercentage == 0.0 && st.pendingPercentage == 0.0 && st.overduePercentage == 0.0) &&
      (st.totalBillAmount > 0.0 ==>
         st.paidPercentage == st.paidBillAmount / st.totalBillAmount * 100.0 &&
         st.pendingPercentage == st.pendingBillAmount / st.totalBillAmount * 100.0 &&
         st.overduePercentage == st.overdueBillAmount / st.totalBillAmount * 100.0 &&
         st.paidPercentage + st.pendingPercentage + st.overduePercentage == 100.0)
  {
    var st := Stats(bills);
    if st.totalBillAmount > 0.0 {
      BucketsPartitionTotal(bills);
      SharesOfWholeSumTo100(st.paidBillAmount, st.pendingBillAmount, st.overdueBillAmount, st.totalBillAmount);
    }
  }

  lemma SharesOfWholeSumTo100(p: real, q: real, o: real, t: real)
    requires t > 0.0 && p + q + o == t
    ensures p / t * 100.0 + q / t * 100.0 + o / t * 100.0 == 100.0
  {
    assert p / t + q / t + o / t == (p + q + o) / t;
  }

  // ---------------------------------------------------------------- the add-bill form

  /** The form fields as typed; `amount` is the raw text of the amount input. */
  datatype BillForm = BillForm(name: string, category: string, dueDate: string, amount: string,
                               status: PaymentStatus)

  /** The `useState` initialiser of the form. */
  function InitialBillForm(): BillForm {
    BillForm("", "Utilities", "", "", PaymentStatus.Pending)
  }

  /** The value the form is reset to after a bill is added. */
  function ResetBillForm(): BillForm {
    BillForm("", "Utilities", "", "", PaymentStatus.Pending)
  }

  lemma ResetIsInitial()
    ensures ResetBillForm() == InitialBillForm()
  {
  }

  predicate BillFormComplete(f: BillForm) {
    f.name != "" && f.dueDate != "" && f.amount != ""
  }

  /** What a submit hands to `addBill`: nothing when a required field is empty, otherwise the
      form's fields with the parsed amount. */
  function BillSubmission(f: BillForm, parsedAmount: real): (r: Option<BillDraft>)
    ensures r.None? <==> (f.name == "" || f.dueDate == "" || f.amount == "")
    ensures r.Some? ==> r.value.name == f.name && r.value.category == f.category &&
                        r.value.dueDate == f.dueDate && r.value.status == f.status &&
                        r.value.amount == parsedAmount
  {
    if !BillFormComplete(f) then None
    else Some(BillDraft(f.name, f.category, f.dueDate, parsedAmount, f.status))
  }

  // ---------------------------------------------------------------- the "Pay Now" action

  /** The row offers "Pay Now" (rather than "View") only for a bill that is not paid. */
  predicate PayNowOffered(b: Bill) {
    b.status != Paid
  }

  /** With distinct ids, "Pay Now" on a row records that bill's amount as an expense once, and
      afterwards the row no longer offers it. */
  lemma PayNowRecordsExpenseOnce(s: StoreState, i: nat)
    requires i < |s.bills| && PayNowOffered(s.bills[i])
    requires forall j :: 0 <= j < i ==> s.bills[j].id != s.bills[i].id
    ensures var r := UpdateBillStatusSpec(s, s.bills[i].id, Paid);
      r.metrics == ExpenseMetrics(s.metrics, s.bills[i].amount) &&
      r.bills[i] == s.bills[i].(status := Paid) && !PayNowOffered(r.bills[i])
  {
    var ids := BillIds(s.bills);
    assert ids[i] == s.bills[i].id;
  }

  /** When an earlier bill with the same id is already paid, "Pay Now" on a later row marks
      that row paid but records no expense, because the payment check looks at the first match. */
  lemma PayNowShadowedByPaidDuplicate(s: StoreState, i: nat, j: nat)
    requires i < j < |s.bills| && s.bills[i].id == s.bills[j].id
    requires s.bills[i].status == Paid && PayNowOffered(s.bills[j])
    requires forall k :: 0 <= k < i ==> s.bills[k].id != s.bills[i].id
    ensures var r := UpdateBillStatusSpec(s, s.bills[j].id, Paid);
      r.metrics == s.metrics && r.bills[j].status == Paid
  {
    var ids := BillIds(s.bills);
    assert ids[i] == s.bills[i].id;
  }

  // ---------------------------------------------------------------- the page

  class BillsPageState {
    const store: FinanceStore
    var open: bool
    var formData: BillForm

    constructor (store: FinanceStore)
      ensures this.store == store && !open && formData == InitialBillForm()
    {
      this.store := store;
      open := false;
      formData := InitialBillForm();
    }

    /** `handleSubmit` with the amount text already parsed. */
    method HandleSubmit(parsedAmount: real)
      modifies this, store
      ensures BillSubmission(old(formData), parsedAmount).None? ==>
        formData == old(formData) && open == old(open) && store.State() == old(store.State())
      ensures BillSubmission(old(formData), parsedAmount).Some? ==>
        store.State() == AddBillSpec(old(store.State()), BillSubmission(old(formData), parsedAmount).value) &&
        formData == InitialBillForm() && !open
    {
      if !BillFormComplete(formData) {
        // validation error toast
        return;
      }
      store.AddBill(BillDraft(formData.name, formData.category, formData.dueDate, parsedAmount, formData.status));
      formData := ResetBillForm();
      open := false;
    }

    method HandleStatusChange(id: string, status: PaymentStatus)
      modifies store
      ensures store.State() == UpdateBillStatusSpec(old(store.State()), id, status)
    {
      store.UpdateBillStatus(id, status);
    }

    /** The "Pay Now" button of a rendered row: it exists only when the row's bill is not paid. */
    method PayNow(row: Bill)
      requires row in store.bills && PayNowOffered(row)
      modifies store
      ensures store.State() == UpdateBillStatusSpec(old(store.State()), row.id, Paid)
    {
      HandleStatusChange(row.id, Paid);
    }
  }
}

/** The taxes page: the add-filing form and the "Mark as Filed" action. */
module TaxesPage {
  import opened FinanceContext

  // ---------------------------------------------------------------- the add-filing form

  /** The form fields as typed; `amount` is the raw text of the amount input. */
  datatype TaxForm = TaxForm(taxType: string, period: string, dueDate: string, amount: string,
                             status: FilingStatus)

  /** The `useState` initialiser of the form. */
  function InitialTaxForm(): TaxForm {
    TaxForm("Income Tax", "", "", "", FilingStatus.Pending)
  }

  /** The value the form is reset to after a filing is added. */
  function ResetTaxForm(): TaxForm {
    TaxForm("Income Tax", "", "", "", FilingStatus.Pending)
  }

  lemma ResetIsInitial()
    ensures ResetTaxForm() == InitialTaxForm()
  {
  }

  /** The tax type is not checked: it always holds a selection. */
  predicate TaxFormComplete(f: TaxForm) {
    f.period != "" && f.dueDate != "" && f.amount != ""
  }

  /** What a submit hands to `addTaxFiling`: nothing when a required field is empty, otherwise
      the form's fields with the parsed amount. */
  function TaxSubmission(f: TaxForm, parsedAmount: real): (r: Option<TaxFilingDraft>)
    ensures r.None? <==> (f.period == "" || f.dueDate == "" || f.amount == "")
    ensures r.Some? ==> r.value.taxType == f.taxType && r.value.period == f.period &&
                        r.value.dueDate == f.dueDate && r.value.status == f.status &&
                        r.value.amount == parsedAmount
  {
    if !TaxFormComplete(f) then None
    else Some(TaxFilingDraft(f.taxType, f.period, f.dueDate, parsedAmount, f.status))
  }

  /** An accepted submission appends exactly one filing carrying the form's fields and touches
      nothing else in the store; a rejected one is never handed to the store. */
  lemma AcceptedSubmissionAppendsFiling(s: StoreState, f: TaxForm, parsedAmount: real, year: nat)
    requires TaxSubmission(f, parsedAmount).Some?
    ensures var r := AddTaxFilingSpec(s, TaxSubmission(f, parsedAmount).value, year);
      var added := r.taxFilings[|s.taxFilings|];
      |r.taxFilings| == |s.taxFilings| + 1 && r.taxFilings[..|s.taxFilings|] == s.taxFilings &&
      added.taxType == f.taxType && added.period == f.period && added.dueDate == f.dueDate &&
      added.amount == parsedAmount && added.status == f.status &&
      added.id == TaxFilingId(year, |s.taxFilings| + 1) &&
      r.(taxFilings := s.taxFilings) == s
  {
  }

  // ---------------------------------------------------------------- the "Mark as Filed" action

  /** The row offers "Mark as Filed" only for a filing that is not filed. */
  predicate MarkAsFiledOffered(f: TaxFiling) {
    f.status != Filed
  }

  /** "Mark as Filed" on a row files that row and every filing sharing its id, leaves the other
      filings and the rest of the store as they were, and afterwards the row no longer offers it. */
  lemma MarkAsFiledFilesRow(s: StoreState, i: nat)
    requires i < |s.taxFilings| && MarkAsFiledOffered(s.taxFilings[i])
    ensures var r := UpdateTaxFilingStatusSpec(s, s.taxFilings[i].id, Filed);
      |r.taxFilings| == |s.taxFilings| &&
      r.taxFilings[i] == s.taxFilings[i].(status := Filed) && !MarkAsFiledOffered(r.taxFilings[i]) &&
      (forall k :: 0 <= k < |s.taxFilings| ==>
         r.taxFilings[k] == (if s.taxFilings[k].id == s.taxFilings[i].id
                             then s.taxFilings[k].(status := Filed) else s.taxFilings[k])) &&
      r.(taxFilings := s.taxFilings) == s
  {
  }

  // ---------------------------------------------------------------- the page

  class TaxesPageState {
    const store: FinanceStore
    var open: bool
    var formData: TaxForm

    constructor (store: FinanceStore)
      ensures this.store == store && !open && formData == InitialTaxForm()
    {
      this.store := store;
      open := false;
      formData := InitialTaxForm();
    }

    /** `handleSubmit` with the amount text already parsed; `year` is the clock's year used
        in the new filing's id. */
    method HandleSubmit(parsedAmount: real, year: nat)
      modifies this, store
      ensures TaxSubmission(old(formData), parsedAmount).None? ==>
        formData == old(formData) && open == old(open) && store.State() == old(store.State())
      ensures TaxSubmission(old(formData), parsedAmount).Some? ==>
        store.State() == AddTaxFilingSpec(old(store.State()), TaxSubmission(old(formData), parsedAmount).value, year) &&
        formData == InitialTaxForm() && !open
    {
      if !TaxFormComplete(formData) {
        // validation error toast
        return;
      }
      store.AddTaxFiling(TaxFilingDraft(formData.taxType, formData.period, formData.dueDate, parsedAmount,
                                        formData.status), year);
      formData := ResetTaxForm();
      open := false;
    }

    method HandleStatusChange(id: string, status: FilingStatus)
      modifies store
      ensures store.State() == UpdateTaxFilingStatusSpec(old(store.State()), id, status)
    {
      store.UpdateTaxFilingStatus(id, status);
    }

    /** The "Mark as Filed" button of a rendered row: it exists only when the row's filing is
        not filed. */
    method MarkAsFiled(row: TaxFiling)
      requires row in store.taxFilings && MarkAsFiledOffered(row)
      modifies store
      ensures store.State() == UpdateTaxFilingStatusSpec(old(store.State()), row.id, Filed)
    {
      HandleStatusChange(row.id, Filed);
    }
  }
}

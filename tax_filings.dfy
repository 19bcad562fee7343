/** Tax filings of an organisation (GST, PAYE, income tax): whether a filing
    was lodged, is overdue, or was lodged late. Dates are day numbers. */
module TaxFilings {

  import opened Common

  const FilingTypes: seq<string> := ["gst", "paye", "income_tax"]
  const Statuses: seq<string> := ["pending", "submitted", "accepted", "rejected"]

  datatype TaxFiling = TaxFiling(
    filingType: string,
    periodStart: Option<int>,
    periodEnd: Option<int>,
    dueDate: Option<int>,
    filedDate: Option<int>,
    status: string)

  /** The validation errors of a filing, in declaration order. */
  function TaxFilingErrors(f: TaxFiling): (errs: seq<FieldError>)
    ensures errs == [] <==>
      f.filingType in FilingTypes && f.status in Statuses &&
      f.periodStart.Some? && f.periodEnd.Some? && f.dueDate.Some?
  {
    InclusionErrors("filing_type", f.filingType, FilingTypes, "is not included in the list")
    + (if f.periodStart.None? then [FieldError("period_start", "can't be blank")] else [])
    + (if f.periodEnd.None? then [FieldError("period_end", "can't be blank")] else [])
    + (if f.dueDate.None? then [FieldError("due_date", "can't be blank")] else [])
    + InclusionErrors("status", f.status, Statuses, "is not included in the list")
  }

  predicate Filed(f: TaxFiling) {
    f.filedDate.Some?
  }

  /** Due before today and not yet filed. */
  predicate Overdue(f: TaxFiling, today: int)
    requires f.dueDate.Some?
  {
    f.dueDate.value < today && !Filed(f)
  }

  /** Filed, and after the due date. */
  predicate FiledLate(f: TaxFiling)
    requires f.dueDate.Some?
  {
    f.filedDate.Some? && f.filedDate.value > f.dueDate.value
  }

  /** The `overdue` scope: the stored condition `due_date < today AND
      filed_date IS NULL`, under which a missing due date never matches. */
  function OverdueScope(fs: seq<TaxFiling>, today: int): (r: seq<TaxFiling>)
    ensures forall f :: f in r <==> f in fs && f.dueDate.Some? && Overdue(f, today)
    ensures |r| <= |fs|
  {
    if fs == [] then []
    else
      var f := fs[0];
      var rest := OverdueScope(fs[1..], today);
      if f.dueDate.Some? && f.dueDate.value < today && f.filedDate.None? then [f] + rest else rest
  }

  /** The `gst` scope. */
  function GstScope(fs: seq<TaxFiling>): (r: seq<TaxFiling>)
    ensures forall f :: f in r <==> f in fs && f.filingType == "gst"
    ensures |r| <= |fs|
  {
    if fs == [] then []
    else if fs[0].filingType == "gst" then [fs[0]] + GstScope(fs[1..])
    else GstScope(fs[1..])
  }

  lemma OverdueIsUnfiled(f: TaxFiling, today: int)
    requires f.dueDate.Some? && Overdue(f, today)
    ensures !Filed(f)
  {
  }

  /** Filing on the due date is on time; a late filing is never overdue. */
  lemma FiledLateCases(f: TaxFiling, today: int)
    requires f.dueDate.Some?
    ensures f.filedDate == f.dueDate ==> !FiledLate(f)
    ensures FiledLate(f) ==> Filed(f) && !Overdue(f, today)
  {
  }
}

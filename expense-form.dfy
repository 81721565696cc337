/** The expense form of forms/expense-form.tsx: `expenseSchema`, whose `.refine` asks
    for a source exactly when the user's preferences track sources, and the form's
    default values. */
module ExpenseForm {
  import opened Js
  import opened Records
  import opened Validation

  const AmountMessage := "Amount must be a positive number"
  const DateMessage := "Date is required"
  const CategoryMessage := "Select a category"
  const SourceMessage := "Select a source"

  /** The values the form hands to the schema; None is `undefined`. The date is a
      calendar pick, kept as its ISO text. */
  datatype ExpenseFormData = ExpenseFormData(
    amount: NumberValue,
    description: Option<string>,
    date: Option<string>,
    categoryId: Option<string>,
    sourceId: Option<string>)

  /** `!data.sourceId` in the refinement: no source id, or an empty one. */
  predicate SourceMissing(sourceId: Option<string>) {
    sourceId.None? || sourceId.value == ""
  }

  /** A field whose type check fails (a NaN amount, a missing date or category) aborts
      the object; zod then skips the refinement. */
  predicate Aborted(data: ExpenseFormData) {
    data.amount.NotANumber? || data.date.None? || data.categoryId.None?
  }

  /** `expenseSchema` with `preferences.track_sources` = `trackSources`: the issues of
      amount, description, date, categoryId (in that order), then the refinement's. */
  function ExpenseIssues(data: ExpenseFormData, trackSources: bool): seq<Issue> {
    var amountIssues :=
      match data.amount
      case NotANumber => [Issue("amount", NaNMessage)]
      case Number(v) => if v > 0.0 then [] else [Issue("amount", AmountMessage)];
    var dateIssues := if data.date.None? then [Issue("date", DateMessage)] else [];
    var categoryIssues := if data.categoryId.None? then [Issue("categoryId", CategoryMessage)] else [];
    var refineIssues :=
      if !Aborted(data) && trackSources && SourceMissing(data.sourceId) then [Issue("sourceId", SourceMessage)] else [];
    amountIssues + dateIssues + categoryIssues + refineIssues
  }

  /** The form is accepted exactly when the amount is a positive number, a date and a
      category are chosen and, when sources are tracked, a non-empty source id. */
  lemma ExpenseAccepted(data: ExpenseFormData, trackSources: bool)
    ensures ExpenseIssues(data, trackSources) == [] <==>
      && data.amount.Number? && data.amount.value > 0.0
      && data.date.Some?
      && data.categoryId.Some?
      && (trackSources ==> !SourceMissing(data.sourceId))
  {
  }

  lemma AmountRule(data: ExpenseFormData, trackSources: bool)
    ensures data.amount.Number? ==>
      (Issue("amount", AmountMessage) in ExpenseIssues(data, trackSources) <==> data.amount.value <= 0.0)
  {
  }

  lemma CategoryRule(data: ExpenseFormData, trackSources: bool)
    ensures Issue("categoryId", CategoryMessage) in ExpenseIssues(data, trackSources) <==> data.categoryId.None?
  {
  }

  /** With sources tracked, a missing or empty source id is reported at `sourceId`,
      once the other fields have passed their type checks. */
  lemma SourceRuleWhenTracking(data: ExpenseFormData)
    requires !Aborted(data)
    ensures Issue("sourceId", SourceMessage) in ExpenseIssues(data, true) <==> SourceMissing(data.sourceId)
  {
  }

  /** Without source tracking a source is never asked for. */
  lemma SourceOptionalWhenNotTracking(data: ExpenseFormData)
    ensures Issue("sourceId", SourceMessage) !in ExpenseIssues(data, false)
    ensures ExpenseIssues(data.(sourceId := None), false) == ExpenseIssues(data, false)
  {
  }

  /** The description never causes a rejection. */
  lemma DescriptionIrrelevant(data: ExpenseFormData, description: Option<string>, trackSources: bool)
    ensures ExpenseIssues(data.(description := description), trackSources) == ExpenseIssues(data, trackSources)
  {
  }

  /** The form's `defaultValues` for the expense being edited, or a new one when None;
      `today` stands for `new Date()`. */
  function ExpenseDefaults(editing: Option<Expense>, today: string): ExpenseFormData {
    if editing.None? then
      ExpenseFormData(Number(0.0), Some(""), Some(today), None, None)
    else
      var e := editing.value;
      ExpenseFormData(
        Number(e.amount),
        Some(e.description.GetOr("")),
        Some(if e.date != "" then e.date else today),
        if e.category.Some? && e.category.value.id != "" then Some(e.category.value.id) else None,
        if e.source.Some? && e.source.value.id != "" then Some(e.source.value.id) else None)
  }

  /** An untouched new form is refused: its amount is 0 and no category is chosen. */
  lemma NewExpenseFormRejected(today: string, trackSources: bool)
    ensures Issue("amount", AmountMessage) in ExpenseIssues(ExpenseDefaults(None, today), trackSources)
    ensures Issue("categoryId", CategoryMessage) in ExpenseIssues(ExpenseDefaults(None, today), trackSources)
  {
  }

  /** Editing a stored expense with a positive amount and a category (and a source,
      when sources are tracked) passes without further input. */
  lemma EditDefaultsAccepted(e: Expense, today: string, trackSources: bool)
    requires e.amount > 0.0 && e.category.Some? && e.category.value.id != ""
    requires trackSources ==> e.source.Some? && e.source.value.id != ""
    ensures ExpenseIssues(ExpenseDefaults(Some(e), today), trackSources) == []
  {
    ExpenseAccepted(ExpenseDefaults(Some(e), today), trackSources);
  }
}

/**
  * The new-expense form (frontend/components/expenses/expense-form.tsx): its
  * schema, its default values, the request it sends, and the submit flow,
  * which marks the form busy while the request is in flight and then either
  * resets the form and reports success, or shows an alert.
  * The network call is the caller's: `Submit` hands back the request and
  * `Settle` is told whether it succeeded.
  */
module ExpenseForm {
  import opened Wrappers
  import opened Domain
  import opened FormSchema

  /** The form's field values. `amount` is `None` when the number input is empty
      or not a number (`valueAsNumber` then gives NaN). */
  datatype ExpenseFormValues = ExpenseFormValues(
    title: string,
    amount: Option<int>,
    currency: string,
    category: string)

  /** The data `expenseSchema` outputs. */
  datatype ExpenseFormData = ExpenseFormData(
    title: string,
    amount: int,
    currency: Currency,
    category: Category)

  /** `defaultValues`: an empty title, an empty amount, "TRY" and "Diğer". */
  const DefaultValues: ExpenseFormValues := ExpenseFormValues("", None, "TRY", "Diğer")

  /** The alert shown when the request fails. */
  const FailureAlert: string := "Gider eklenirken bir hata oluştu"

  /** One change the user makes: a new value for one input. */
  datatype ExpenseEdit =
    | SetTitle(title: string)
    | SetAmount(amount: Option<int>)
    | SetCurrency(currency: string)
    | SetCategory(category: string)

  /** The values after a change. */
  function ApplyEdit(v: ExpenseFormValues, e: ExpenseEdit): ExpenseFormValues {
    match e
    case SetTitle(t) => v.(title := t)
    case SetAmount(a) => v.(amount := a)
    case SetCurrency(c) => v.(currency := c)
    case SetCategory(k) => v.(category := k)
  }

  /** The input a change is made in. */
  function EditedField(e: ExpenseEdit): FormField {
    match e
    case SetTitle(_) => TitleField
    case SetAmount(_) => AmountField
    case SetCurrency(_) => CurrencyField
    case SetCategory(_) => CategoryField
  }

  /** The failing fields of `expenseSchema`, in schema order. */
  function ExpenseIssues(v: ExpenseFormValues): seq<FieldIssue> {
    TitleIssues(v.title) + AmountIssues(v.amount) + CurrencyIssues(v.currency) + CategoryIssues(v.category)
  }

  /** The rule of one input checked on its own. */
  function FieldIssues(v: ExpenseFormValues, f: FormField): seq<FieldIssue> {
    match f
    case TitleField => TitleIssues(v.title)
    case AmountField => AmountIssues(v.amount)
    case CurrencyField => CurrencyIssues(v.currency)
    case CategoryField => CategoryIssues(v.category)
    case _ => []
  }

  /** Checking one input on its own reports, for that input, exactly what the whole
      schema reports, and nothing about any other input. */
  lemma FieldIssuesAgree(v: ExpenseFormValues, f: FormField)
    ensures forall x :: x in FieldIssues(v, f) ==> FieldOf(x) == f
    ensures forall x :: FieldOf(x) == f ==> (x in FieldIssues(v, f) <==> x in ExpenseIssues(v))
  {
    var t, a, c, k := TitleIssues(v.title), AmountIssues(v.amount), CurrencyIssues(v.currency), CategoryIssues(v.category);
    forall x ensures x in ExpenseIssues(v) <==> x in t || x in a || x in c || x in k {
      InIssues(x, t, a, c, k, []);
      assert ExpenseIssues(v) == t + a + c + k + [];
    }
  }

  /** `expenseSchema`: every failing field, in schema order; the typed data when none fails. */
  function ValidateExpense(v: ExpenseFormValues): Validation<ExpenseFormData> {
    var issues := ExpenseIssues(v);
    if issues == [] then
      Accepted(ExpenseFormData(v.title, v.amount.value, ParseCurrency(v.currency).value, ParseCategory(v.category).value))
    else Rejected(issues)
  }

  /** The request: `user_id` and the validated fields, spread unchanged. */
  function ExpenseRequest(userId: string, data: ExpenseFormData): CreateExpenseRequest {
    CreateExpenseRequest(userId, data.title, data.amount, data.currency.Code(), data.category.Label())
  }

  /** The form accepts exactly a non-empty title, a positive amount, one of the four
      currency codes and one of the eight category labels. */
  lemma ValidateExpenseAccepts(v: ExpenseFormValues)
    ensures ValidateExpense(v).Accepted? <==>
      && |v.title| >= 1
      && v.amount.Some? && v.amount.value > 0
      && (exists c: Currency :: c.Code() == v.currency)
      && (exists k: Category :: k.Label() == v.category)
  {
    var t, a, c, k := TitleIssues(v.title), AmountIssues(v.amount), CurrencyIssues(v.currency), CategoryIssues(v.category);
    assert t + a + c + k == [] <==> t == [] && a == [] && c == [] && k == [];
  }

  /** A rejection names exactly the fields that fail, and never a subscription field. */
  lemma ValidateExpenseRejects(v: ExpenseFormValues)
    requires ValidateExpense(v).Rejected?
    ensures var issues := ValidateExpense(v).issues;
      && issues != []
      && (TitleRequired in issues <==> |v.title| < 1)
      && (AmountNotANumber in issues <==> v.amount.None?)
      && (AmountNotPositive in issues <==> v.amount.Some? && v.amount.value <= 0)
      && (CurrencyInvalid in issues <==> forall c: Currency :: c.Code() != v.currency)
      && (CategoryInvalid in issues <==> forall k: Category :: k.Label() != v.category)
      && BillingPeriodInvalid !in issues && NextBillingRequired !in issues
  {
    var t, a, c, k := TitleIssues(v.title), AmountIssues(v.amount), CurrencyIssues(v.currency), CategoryIssues(v.category);
    var issues := ValidateExpense(v).issues;
    assert issues == t + a + c + k + [];
    InIssues(TitleRequired, t, a, c, k, []);
    InIssues(AmountNotANumber, t, a, c, k, []);
    InIssues(AmountNotPositive, t, a, c, k, []);
    InIssues(CurrencyInvalid, t, a, c, k, []);
    InIssues(CategoryInvalid, t, a, c, k, []);
    InIssues(BillingPeriodInvalid, t, a, c, k, []);
    InIssues(NextBillingRequired, t, a, c, k, []);
  }

  /** The request sent for accepted input carries the user id and the typed-in values
      unchanged. */
  lemma RequestCarriesInput(userId: string, v: ExpenseFormValues)
    requires ValidateExpense(v).Accepted?
    ensures ExpenseRequest(userId, ValidateExpense(v).data)
         == CreateExpenseRequest(userId, v.title, v.amount.value, v.currency, v.category)
  {
  }

  /** The defaults name members of the two enumerations; an untouched form is still
      rejected, for its title and its amount only. */
  lemma DefaultsInEnumerations()
    ensures ParseCurrency(DefaultValues.currency) == Some(TRY)
    ensures ParseCategory(DefaultValues.category) == Some(Diger)
    ensures ValidateExpense(DefaultValues) == Rejected([TitleRequired, AmountNotANumber])
  {
    assert ParseCurrency("TRY") == Some(TRY);
  }

  /** The form component's state: its field values, its shown errors, whether a
      submission has completed (`formState.isSubmitted`), the busy flag, the request
      awaiting the network, the alerts shown and the success callbacks made. */
  class ExpenseFormState {
    const userId: string
    var values: ExpenseFormValues
    var issues: seq<FieldIssue>
    var submitted: bool
    var isSubmitting: bool
    var pending: Option<CreateExpenseRequest>
    var alerts: seq<string>
    var successCalls: nat

    /** The form is busy exactly while a request is in flight. */
    ghost predicate Consistent()
      reads this
    {
      isSubmitting <==> pending.Some?
    }

    constructor(userId: string)
      ensures Consistent()
      ensures this.userId == userId && values == DefaultValues && issues == [] && !submitted
      ensures !isSubmitting && pending == None && alerts == [] && successCalls == 0
    {
      this.userId := userId;
      values := DefaultValues;
      issues := [];
      submitted := false;
      isSubmitting := false;
      pending := None;
      alerts := [];
      successCalls := 0;
    }

    /** The user changes one input. Before the first submission nothing is validated;
      after it, the changed input is checked again (`reValidateMode: "onChange"`, the
      default `useForm` keeps): its shown errors become the schema's verdict on the new
      values, and the other inputs' errors stay. */
    method Edit(e: ExpenseEdit)
      modifies this
      ensures values == ApplyEdit(old(values), e)
      ensures !submitted ==> issues == old(issues)
      ensures submitted ==> forall x :: x in issues <==>
        if FieldOf(x) == EditedField(e) then x in ExpenseIssues(values) else x in old(issues)
      ensures submitted == old(submitted) && isSubmitting == old(isSubmitting) && pending == old(pending)
      ensures alerts == old(alerts) && successCalls == old(successCalls)
    {
      values := ApplyEdit(values, e);
      if submitted {
        FieldIssuesAgree(values, EditedField(e));
        issues := Revalidate(issues, EditedField(e), FieldIssues(values, EditedField(e)));
      }
    }

    /** `handleSubmit(onSubmit)` up to `await createExpense(request)`: rejected input
      shows its errors and sends nothing; accepted input marks the form busy and sends
      the request. The submit button is disabled while busy. A rejection completes the
      submission and marks the form submitted; a sent request leaves that mark as it was
      until it settles. */
    method Submit() returns (request: Option<CreateExpenseRequest>)
      requires Consistent() && !isSubmitting
      modifies this
      ensures Consistent()
      ensures isSubmitting ==> submitted == old(submitted)
      ensures !isSubmitting ==> submitted
      ensures values == old(values) && alerts == old(alerts) && successCalls == old(successCalls)
      ensures ValidateExpense(values).Rejected? ==>
        request == None && !isSubmitting && issues == ValidateExpense(values).issues
      ensures ValidateExpense(values).Accepted? ==>
        && request == Some(ExpenseRequest(userId, ValidateExpense(values).data))
        && isSubmitting && pending == request && issues == []
    {
      match ValidateExpense(values)
      case Rejected(errs) =>
        issues := errs;
        submitted := true;
        request := None;
      case Accepted(data) =>
        issues := [];
        isSubmitting := true;
        request := Some(ExpenseRequest(userId, data));
        pending := request;
    }

    /** The rest of `onSubmit` once the request settles: on success the form is reset
      and `onSuccess` runs; on failure an alert is shown and the values stay. Either way
      the form is no longer busy. `handleSubmit` then marks the form submitted, after
      the `reset()` inside `onSubmit` has cleared that mark. */
    method Settle(succeeded: bool)
      requires Consistent() && isSubmitting
      modifies this
      ensures Consistent() && !isSubmitting && pending == None && submitted
      ensures succeeded ==>
        && values == DefaultValues && issues == []
        && successCalls == old(successCalls) + 1 && alerts == old(alerts)
      ensures !succeeded ==>
        && values == old(values) && issues == old(issues)
        && successCalls == old(successCalls) && alerts == old(alerts) + [FailureAlert]
    {
      if succeeded {
        values := DefaultValues;
        issues := [];
        successCalls := successCalls + 1;
      } else {
        alerts := alerts + [FailureAlert];
      }
      isSubmitting := false;
      pending := None;
      submitted := true;
    }
  }
}

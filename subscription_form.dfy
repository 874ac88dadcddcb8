/**
  * The new-subscription form (frontend/components/subscriptions/subscription-form.tsx):
  * its schema, its default values (today's date among them), the request it
  * sends, and the submit flow. The date picker's `YYYY-MM-DD` value is parsed
  * with `new Date` and sent as its ISO string; both are functions the form is
  * given (`parseDate` answers `None` for an invalid date, on which
  * `toISOString` throws a RangeError).
  */
module SubscriptionForm {
  import opened Wrappers
  import opened Domain
  import opened FormSchema

  /** The form's field values; `amount` is `None` for the NaN of an empty input. */
  datatype SubscriptionFormValues = SubscriptionFormValues(
    title: string,
    amount: Option<int>,
    currency: string,
    billingPeriod: string,
    nextBillingAt: string)

  /** The data `subscriptionSchema` outputs. */
  datatype SubscriptionFormData = SubscriptionFormData(
    title: string,
    amount: int,
    currency: Currency,
    billingPeriod: BillingPeriod,
    nextBillingAt: string)

  /** The alert shown when the request fails or the date cannot be converted. */
  const FailureAlert: string := "Abonelik eklenirken bir hata oluştu"

  /** `iso.split("T")[0]`: everything before the first "T". */
  function DatePart(iso: string): (r: string)
    ensures |r| <= |iso| && r == iso[..|r|]
    ensures 'T' !in r
    ensures |r| < |iso| ==> iso[|r|] == 'T'
  {
    if iso == [] || iso[0] == 'T' then [] else [iso[0]] + DatePart(iso[1..])
  }

  /** `defaultValues`, given `new Date().toISOString()`. */
  function DefaultValues(nowIso: string): SubscriptionFormValues {
    SubscriptionFormValues("", None, "TRY", "monthly", DatePart(nowIso))
  }

  /** One change the user makes: a new value for one input. */
  datatype SubscriptionEdit =
    | SetTitle(title: string)
    | SetAmount(amount: Option<int>)
    | SetCurrency(currency: string)
    | SetBillingPeriod(billingPeriod: string)
    | SetNextBillingAt(nextBillingAt: string)

  /** The values after a change. */
  function ApplyEdit(v: SubscriptionFormValues, e: SubscriptionEdit): SubscriptionFormValues {
    match e
    case SetTitle(t) => v.(title := t)
    case SetAmount(a) => v.(amount := a)
    case SetCurrency(c) => v.(currency := c)
    case SetBillingPeriod(p) => v.(billingPeriod := p)
    case SetNextBillingAt(d) => v.(nextBillingAt := d)
  }

  /** The input a change is made in. */
  function EditedField(e: SubscriptionEdit): FormField {
    match e
    case SetTitle(_) => TitleField
    case SetAmount(_) => AmountField
    case SetCurrency(_) => CurrencyField
    case SetBillingPeriod(_) => BillingPeriodField
    case SetNextBillingAt(_) => NextBillingField
  }

  /** The failing fields of `subscriptionSchema`, in schema order. */
  function SubscriptionIssues(v: SubscriptionFormValues): seq<FieldIssue> {
    TitleIssues(v.title) + AmountIssues(v.amount) + CurrencyIssues(v.currency)
      + BillingPeriodIssues(v.billingPeriod) + NextBillingIssues(v.nextBillingAt)
  }

  /** The rule of one input checked on its own. */
  function FieldIssues(v: SubscriptionFormValues, f: FormField): seq<FieldIssue> {
    match f
    case TitleField => TitleIssues(v.title)
    case AmountField => AmountIssues(v.amount)
    case CurrencyField => CurrencyIssues(v.currency)
    case BillingPeriodField => BillingPeriodIssues(v.billingPeriod)
    case NextBillingField => NextBillingIssues(v.nextBillingAt)
    case CategoryField => []
  }

  /** Checking one input on its own reports, for that input, exactly what the whole
      schema reports, and nothing about any other input. */
  lemma FieldIssuesAgree(v: SubscriptionFormValues, f: FormField)
    ensures forall x :: x in FieldIssues(v, f) ==> FieldOf(x) == f
    ensures forall x :: FieldOf(x) == f ==> (x in FieldIssues(v, f) <==> x in SubscriptionIssues(v))
  {
    var t, a, c, p, n := TitleIssues(v.title), AmountIssues(v.amount), CurrencyIssues(v.currency),
      BillingPeriodIssues(v.billingPeriod), NextBillingIssues(v.nextBillingAt);
    forall x ensures x in SubscriptionIssues(v) <==> x in t || x in a || x in c || x in p || x in n {
      InIssues(x, t, a, c, p, n);
    }
  }

  /** `subscriptionSchema`: every failing field, in schema order; the typed data when none fails. */
  function ValidateSubscription(v: SubscriptionFormValues): Validation<SubscriptionFormData> {
    var issues := SubscriptionIssues(v);
    if issues == [] then
      Accepted(SubscriptionFormData(v.title, v.amount.value, ParseCurrency(v.currency).value,
        ParseBillingPeriod(v.billingPeriod).value, v.nextBillingAt))
    else Rejected(issues)
  }

  /** The request: `user_id`, the validated fields, and `next_billing_at` replaced by the
      ISO string of the parsed date. */
  function SubscriptionRequest(userId: string, data: SubscriptionFormData, nextBillingIso: string): CreateSubscriptionRequest {
    CreateSubscriptionRequest(userId, data.title, data.amount, data.currency.Code(), data.billingPeriod.Name(), nextBillingIso)
  }

  /** The form accepts exactly a non-empty title, a positive amount, one of the four
      currency codes, "monthly" or "yearly", and a non-empty date. */
  lemma ValidateSubscriptionAccepts(v: SubscriptionFormValues)
    ensures ValidateSubscription(v).Accepted? <==>
      && |v.title| >= 1
      && v.amount.Some? && v.amount.value > 0
      && (exists c: Currency :: c.Code() == v.currency)
      && (v.billingPeriod == "monthly" || v.billingPeriod == "yearly")
      && |v.nextBillingAt| >= 1
  {
    var t, a, c := TitleIssues(v.title), AmountIssues(v.amount), CurrencyIssues(v.currency);
    var p, n := BillingPeriodIssues(v.billingPeriod), NextBillingIssues(v.nextBillingAt);
    assert t + a + c + p + n == [] <==> t == [] && a == [] && c == [] && p == [] && n == [];
    assert (exists q: BillingPeriod :: q.Name() == v.billingPeriod)
       <==> v.billingPeriod == "monthly" || v.billingPeriod == "yearly" by {
      if v.billingPeriod == "monthly" {
        assert Monthly.Name() == v.billingPeriod;
      } else if v.billingPeriod == "yearly" {
        assert Yearly.Name() == v.billingPeriod;
      }
    }
  }

  /** A rejection names exactly the fields that fail, and never the category. */
  lemma ValidateSubscriptionRejects(v: SubscriptionFormValues)
    requires ValidateSubscription(v).Rejected?
    ensures var issues := ValidateSubscription(v).issues;
      && issues != []
      && (TitleRequired in issues <==> |v.title| < 1)
      && (AmountNotANumber in issues <==> v.amount.None?)
      && (AmountNotPositive in issues <==> v.amount.Some? && v.amount.value <= 0)
      && (CurrencyInvalid in issues <==> forall c: Currency :: c.Code() != v.currency)
      && (BillingPeriodInvalid in issues <==> forall p: BillingPeriod :: p.Name() != v.billingPeriod)
      && (NextBillingRequired in issues <==> |v.nextBillingAt| < 1)
      && CategoryInvalid !in issues
  {
    var t, a, c := TitleIssues(v.title), AmountIssues(v.amount), CurrencyIssues(v.currency);
    var p, n := BillingPeriodIssues(v.billingPeriod), NextBillingIssues(v.nextBillingAt);
    var issues := ValidateSubscription(v).issues;
    assert issues == t + a + c + p + n;
    InIssues(TitleRequired, t, a, c, p, n);
    InIssues(AmountNotANumber, t, a, c, p, n);
    InIssues(AmountNotPositive, t, a, c, p, n);
    InIssues(CurrencyInvalid, t, a, c, p, n);
    InIssues(CategoryInvalid, t, a, c, p, n);
    InIssues(BillingPeriodInvalid, t, a, c, p, n);
    InIssues(NextBillingRequired, t, a, c, p, n);
  }

  /** The request for accepted input carries the user id and the typed-in values, except
      the date, which is sent in its converted form. */
  lemma RequestCarriesInput(userId: string, v: SubscriptionFormValues, nextBillingIso: string)
    requires ValidateSubscription(v).Accepted?
    ensures SubscriptionRequest(userId, ValidateSubscription(v).data, nextBillingIso)
         == CreateSubscriptionRequest(userId, v.title, v.amount.value, v.currency, v.billingPeriod, nextBillingIso)
  {
  }

  /** The defaults pass the enumeration rules and, for any ISO timestamp (which starts
      with its year), the date rule: today's `YYYY-MM-DD` is not empty. */
  lemma DefaultsSatisfyRules(nowIso: string)
    requires |nowIso| > 0 && nowIso[0] != 'T'
    ensures var d := DefaultValues(nowIso);
      && CurrencyIssues(d.currency) == []
      && BillingPeriodIssues(d.billingPeriod) == []
      && NextBillingIssues(d.nextBillingAt) == []
      && ValidateSubscription(d) == Rejected([TitleRequired, AmountNotANumber])
  {
    var d := DefaultValues(nowIso);
    assert DatePart(nowIso)[0] == nowIso[0];
    assert TRY.Code() == d.currency;
    assert Monthly.Name() == d.billingPeriod;
  }

  /** The form component's state; `submitted` is `formState.isSubmitted`, set once a
      submission has completed. `parseDate` and `isoString` stand for `new Date(s)` and
      `toISOString()`; `defaults` is fixed when the form is created. */
  class SubscriptionFormState {
    const userId: string
    const defaults: SubscriptionFormValues
    const parseDate: string -> Option<int>
    const isoString: int -> string
    var values: SubscriptionFormValues
    var issues: seq<FieldIssue>
    var submitted: bool
    var isSubmitting: bool
    var pending: Option<CreateSubscriptionRequest>
    var alerts: seq<string>
    var successCalls: nat

    /** The form is busy exactly while a request is in flight. */
    ghost predicate Consistent()
      reads this
    {
      isSubmitting <==> pending.Some?
    }

    constructor(userId: string, nowIso: string, parseDate: string -> Option<int>, isoString: int -> string)
      ensures Consistent()
      ensures this.userId == userId && this.parseDate == parseDate && this.isoString == isoString
      ensures defaults == DefaultValues(nowIso) && values == defaults && issues == [] && !submitted
      ensures !isSubmitting && pending == None && alerts == [] && successCalls == 0
    {
      this.userId := userId;
      this.parseDate := parseDate;
      this.isoString := isoString;
      defaults := DefaultValues(nowIso);
      values := DefaultValues(nowIso);
      issues := [];
      submitted := false;
      isSubmitting := false;
      pending := None;
      alerts := [];
      successCalls := 0;
    }

    /** The user changes one input. Before the first submission nothing is validated;
      after it, the changed input is checked again (`reValidateMode: "onChange"`, the
      default `useForm` keeps): its shown errors become the schema's verdict on the new
      values, and the other inputs' errors stay. */
    method Edit(e: SubscriptionEdit)
      modifies this
      ensures values == ApplyEdit(old(values), e)
      ensures !submitted ==> issues == old(issues)
      ensures submitted ==> forall x :: x in issues <==>
        if FieldOf(x) == EditedField(e) then x in SubscriptionIssues(values) else x in old(issues)
      ensures submitted == old(submitted) && isSubmitting == old(isSubmitting) && pending == old(pending)
      ensures alerts == old(alerts) && successCalls == old(successCalls)
    {
      values := ApplyEdit(values, e);
      if submitted {
        FieldIssuesAgree(values, EditedField(e));
        issues := Revalidate(issues, EditedField(e), FieldIssues(values, EditedField(e)));
      }
    }

    /** `handleSubmit(onSubmit)` up to `await createSubscription(request)`. Rejected input
      shows its errors. Accepted input with a date `new Date` cannot read throws inside
      the `try`: an alert, no request, and the form is not left busy. Otherwise the form
      is busy and the request is sent. A rejection or an unreadable date completes the
      submission and marks the form submitted; a sent request leaves that mark as it was
      until it settles. */
    method Submit() returns (request: Option<CreateSubscriptionRequest>)
      requires Consistent() && !isSubmitting
      modifies this
      ensures Consistent()
      ensures isSubmitting ==> submitted == old(submitted)
      ensures !isSubmitting ==> submitted
      ensures values == old(values) && successCalls == old(successCalls)
      ensures ValidateSubscription(values).Rejected? ==>
        request == None && !isSubmitting && issues == ValidateSubscription(values).issues && alerts == old(alerts)
      ensures ValidateSubscription(values).Accepted? ==>
        var data := ValidateSubscription(values).data;
        && issues == []
        && (parseDate(data.nextBillingAt).None? ==>
              request == None && !isSubmitting && alerts == old(alerts) + [FailureAlert])
        && (parseDate(data.nextBillingAt).Some? ==>
              && request == Some(SubscriptionRequest(userId, data, isoString(parseDate(data.nextBillingAt).value)))
              && isSubmitting && pending == request && alerts == old(alerts))
    {
      match ValidateSubscription(values)
      case Rejected(errs) =>
        issues := errs;
        submitted := true;
        request := None;
      case Accepted(data) =>
        issues := [];
        match parseDate(data.nextBillingAt)
        case None =>
          alerts := alerts + [FailureAlert];
          submitted := true;
          request := None;
        case Some(at) =>
          isSubmitting := true;
          request := Some(SubscriptionRequest(userId, data, isoString(at)));
          pending := request;
    }

    /** The rest of `onSubmit` once the request settles: reset and `onSuccess` on success,
      an alert on failure, and the form no longer busy either way. `handleSubmit` then
      marks the form submitted, after the `reset()` inside `onSubmit` has cleared that
      mark. */
    method Settle(succeeded: bool)
      requires Consistent() && isSubmitting
      modifies this
      ensures Consistent() && !isSubmitting && pending == None && submitted
      ensures succeeded ==>
        && values == defaults && issues == []
        && successCalls == old(successCalls) + 1 && alerts == old(alerts)
      ensures !succeeded ==>
        && values == old(values) && issues == old(issues)
        && successCalls == old(successCalls) && alerts == old(alerts) + [FailureAlert]
    {
      if succeeded {
        values := defaults;
        issues := [];
        successCalls := successCalls + 1;
      } else {
        alerts := alerts + [FailureAlert];
      }
      isSubmitting := false;
      pending := None;
      submitted := true;
    }
  }
}

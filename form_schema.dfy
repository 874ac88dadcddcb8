/**
  * The field rules the two client forms share (their zod schemas), and the
  * shape of a schema's verdict: the typed data, or every failing field in
  * schema order.
  */
module FormSchema {
  import opened Wrappers
  import opened Domain
  import opened Seqs

  /** One failing field, named by the rule it breaks. */
  datatype FieldIssue =
    | TitleRequired          // `z.string().min(1)`: "Başlık gereklidir"
    | AmountNotANumber       // `z.number()` given the NaN of an empty number input
    | AmountNotPositive      // `.positive()`: "Tutar pozitif olmalıdır"
    | CurrencyInvalid        // not one of the four codes
    | CategoryInvalid        // not one of the eight labels
    | BillingPeriodInvalid   // not "monthly" or "yearly"
    | NextBillingRequired    // `z.string().min(1)`: "Yenileme tarihi gereklidir"

  /** The input a field issue is shown under. */
  datatype FormField = TitleField | AmountField | CurrencyField | CategoryField | BillingPeriodField | NextBillingField

  function FieldOf(x: FieldIssue): FormField {
    match x
    case TitleRequired => TitleField
    case AmountNotANumber => AmountField
    case AmountNotPositive => AmountField
    case CurrencyInvalid => CurrencyField
    case CategoryInvalid => CategoryField
    case BillingPeriodInvalid => BillingPeriodField
    case NextBillingRequired => NextBillingField
  }

  /** Re-validating one field after a change, as a form does once it has been submitted:
      the shown issues of field `f` are replaced by `rechecked`, and those of every other
      field stay as they were. */
  function Revalidate(shown: seq<FieldIssue>, f: FormField, rechecked: seq<FieldIssue>): (r: seq<FieldIssue>)
    ensures forall x :: x in r <==> x in rechecked || (FieldOf(x) != f && x in shown)
  {
    FilterMembers(shown, x => FieldOf(x) != f);
    Filter(shown, x => FieldOf(x) != f) + rechecked
  }

  /** What resolving the form against its schema gives. */
  datatype Validation<T> = Accepted(data: T) | Rejected(issues: seq<FieldIssue>)

  /** `z.string().min(1)` on the title. */
  function TitleIssues(title: string): (r: seq<FieldIssue>)
    ensures r == [] <==> |title| >= 1
    ensures r != [] ==> r == [TitleRequired]
  {
    if |title| < 1 then [TitleRequired] else []
  }

  /** `z.number().positive()` on the amount; `None` is the NaN of an empty or
      non-numeric input, which fails the type check and skips `positive`. */
  function AmountIssues(amount: Option<int>): (r: seq<FieldIssue>)
    ensures r == [] <==> amount.Some? && amount.value > 0
    ensures amount.None? ==> r == [AmountNotANumber]
    ensures amount.Some? && amount.value <= 0 ==> r == [AmountNotPositive]
  {
    match amount
    case None => [AmountNotANumber]
    case Some(a) => if a <= 0 then [AmountNotPositive] else []
  }

  /** `z.enum(["TRY", "USD", "EUR", "GBP"])`. */
  function CurrencyIssues(currency: string): (r: seq<FieldIssue>)
    ensures r == [] <==> exists c: Currency :: c.Code() == currency
    ensures r != [] ==> r == [CurrencyInvalid]
  {
    if ParseCurrency(currency).None? then [CurrencyInvalid]
    else
      assert ParseCurrency(currency).value.Code() == currency;
      []
  }

  /** `z.enum` of the eight category labels. */
  function CategoryIssues(category: string): (r: seq<FieldIssue>)
    ensures r == [] <==> exists k: Category :: k.Label() == category
    ensures r != [] ==> r == [CategoryInvalid]
  {
    if ParseCategory(category).None? then [CategoryInvalid]
    else
      assert ParseCategory(category).value.Label() == category;
      []
  }

  /** `z.enum(["monthly", "yearly"])`. */
  function BillingPeriodIssues(period: string): (r: seq<FieldIssue>)
    ensures r == [] <==> exists p: BillingPeriod :: p.Name() == period
    ensures r != [] ==> r == [BillingPeriodInvalid]
  {
    if ParseBillingPeriod(period).None? then [BillingPeriodInvalid]
    else
      assert ParseBillingPeriod(period).value.Name() == period;
      []
  }

  /** `z.string().min(1)` on the next billing date. */
  function NextBillingIssues(date: string): (r: seq<FieldIssue>)
    ensures r == [] <==> |date| >= 1
    ensures r != [] ==> r == [NextBillingRequired]
  {
    if |date| < 1 then [NextBillingRequired] else []
  }

  /** An issue is in a form's verdict, the field lists in schema order, exactly when one
      of the fields reports it. */
  lemma InIssues(x: FieldIssue, t: seq<FieldIssue>, a: seq<FieldIssue>, c: seq<FieldIssue>, p: seq<FieldIssue>, n: seq<FieldIssue>)
    ensures x in t + a + c + p + n <==> x in t || x in a || x in c || x in p || x in n
  {
  }
}

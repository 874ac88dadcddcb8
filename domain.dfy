/**
  * The entities the tracker works with: the three fixed enumerations and the
  * record shapes exchanged between the web client and the REST service.
  * Amounts are integers in minor currency units; timestamps are milliseconds
  * since the Unix epoch (the client parses the service's date strings once).
  */
module Domain {
  import opened Wrappers

  /** The eight expense categories, in the order the client lists them. */
  datatype Category = Yiyecek | Ulasim | Alisveris | Faturalar | Eglence | Saglik | Egitim | Diger {

    /** The label the client shows, filters on and sends to the service. */
    function Label(): string {
      match this
      case Yiyecek => "Yiyecek"
      case Ulasim => "Ulaşım"
      case Alisveris => "Alışveriş"
      case Faturalar => "Faturalar"
      case Eglence => "Eğlence"
      case Saglik => "Sağlık"
      case Egitim => "Eğitim"
      case Diger => "Diğer"
    }
  }

  /** The four supported currency codes. */
  datatype Currency = TRY | USD | EUR | GBP {
    function Code(): string {
      match this
      case TRY => "TRY"
      case USD => "USD"
      case EUR => "EUR"
      case GBP => "GBP"
    }
  }

  /** How often a subscription renews. */
  datatype BillingPeriod = Monthly | Yearly {
    function Name(): string {
      match this
      case Monthly => "monthly"
      case Yearly => "yearly"
    }
  }

  /** Membership in the category enumeration: the category whose label is `s`, if any. */
  function ParseCategory(s: string): (r: Option<Category>)
    ensures r.Some? ==> r.value.Label() == s
    ensures r.None? ==> forall c: Category :: c.Label() != s
  {
    if s == "Yiyecek" then Some(Yiyecek)
    else if s == "Ulaşım" then Some(Ulasim)
    else if s == "Alışveriş" then Some(Alisveris)
    else if s == "Faturalar" then Some(Faturalar)
    else if s == "Eğlence" then Some(Eglence)
    else if s == "Sağlık" then Some(Saglik)
    else if s == "Eğitim" then Some(Egitim)
    else if s == "Diğer" then Some(Diger)
    else None
  }

  /** Membership in the currency enumeration. */
  function ParseCurrency(s: string): (r: Option<Currency>)
    ensures r.Some? ==> r.value.Code() == s
    ensures r.None? ==> forall c: Currency :: c.Code() != s
  {
    if s == "TRY" then Some(TRY)
    else if s == "USD" then Some(USD)
    else if s == "EUR" then Some(EUR)
    else if s == "GBP" then Some(GBP)
    else None
  }

  /** Membership in the billing-period enumeration. */
  function ParseBillingPeriod(s: string): (r: Option<BillingPeriod>)
    ensures r.Some? ==> r.value.Name() == s
    ensures r.None? ==> forall p: BillingPeriod :: p.Name() != s
  {
    if s == "monthly" then Some(Monthly)
    else if s == "yearly" then Some(Yearly)
    else None
  }

  /** Every label parses back to its own category: the labels are distinct. */
  lemma CategoryLabelRoundTrip(c: Category)
    ensures ParseCategory(c.Label()) == Some(c)
  {
  }

  lemma CurrencyCodeRoundTrip(c: Currency)
    ensures ParseCurrency(c.Code()) == Some(c)
  {
  }

  lemma BillingPeriodNameRoundTrip(p: BillingPeriod)
    ensures ParseBillingPeriod(p.Name()) == Some(p)
  {
  }

  /** An expense as the client receives it. Category and currency are free strings:
      the service does not restrict them to the enumerations. */
  datatype Expense = Expense(
    id: string,
    userId: string,
    title: string,
    amount: int,
    currency: string,
    category: string,
    createdAt: int)

  /** A subscription as the client receives it. */
  datatype Subscription = Subscription(
    id: string,
    userId: string,
    title: string,
    amount: int,
    currency: string,
    billingPeriod: BillingPeriod,
    nextBillingAt: int,
    active: bool,
    createdAt: int)

  datatype User = User(id: string, email: string, createdAt: string)

  /** Body of `POST /expenses`, as sent by the client and decoded by the service. */
  datatype CreateExpenseRequest = CreateExpenseRequest(
    userId: string,
    title: string,
    amount: int,
    currency: string,
    category: string)

  /** Body of `POST /subscriptions`; `nextBillingAt` is a date-time string. */
  datatype CreateSubscriptionRequest = CreateSubscriptionRequest(
    userId: string,
    title: string,
    amount: int,
    currency: string,
    billingPeriod: string,
    nextBillingAt: string)

  function ExpenseAmount(e: Expense): int { e.amount }

  function SubscriptionAmount(s: Subscription): int { s.amount }

  /** A monthly amount projected over a year. */
  function AnnualisedAmount(s: Subscription): int { s.amount * 12 }

  predicate IsActive(s: Subscription) { s.active }

  predicate IsInactive(s: Subscription) { !s.active }

  predicate IsMonthly(s: Subscription) { s.billingPeriod == Monthly }

  predicate IsYearly(s: Subscription) { s.billingPeriod == Yearly }

  predicate IsActiveMonthly(s: Subscription) { s.active && s.billingPeriod == Monthly }

  predicate IsActiveYearly(s: Subscription) { s.active && s.billingPeriod == Yearly }
}

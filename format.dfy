/**
  * The client's derivation helpers (frontend/lib/utils/format.ts): the
  * relative-day label of a date, the expense total, the monthly and yearly
  * recurring totals, and the list of upcoming subscriptions.
  * The Intl-based currency and date formatters are not modelled: a short
  * date is kept as the timestamp it would render.
  */
module Format {
  import opened Wrappers
  import opened Domain
  import opened Seqs
  import opened StableSort

  /** `1000 * 60 * 60 * 24`. */
  const DayMs: int := 86400000

  /** `Math.ceil(a / b)` for a positive divisor. */
  function CeilDiv(a: int, b: int): (q: int)
    requires b > 0
    ensures (q - 1) * b < a <= q * b
  {
    var m := -a;
    assert m == b * (m / b) + m % b;
    -(m / b)
  }

  /** The day count `formatRelativeTime` branches on: whole 24-hour periods from
      `now` to `target`, rounded up. */
  function RelativeDays(target: int, now: int): int {
    CeilDiv(target - now, DayMs)
  }

  /** The label `formatRelativeTime` produces. */
  datatype RelativeTime =
    | DaysAgo(days: nat)    // "<days> gün önce"
    | Today                 // "Bugün"
    | Tomorrow              // "Yarın"
    | InDays(days: nat)     // "<days> gün sonra"
    | ShortDate(at: int)    // the short locale date of `at`

  function FormatRelativeTime(target: int, now: int): RelativeTime {
    var d := RelativeDays(target, now);
    if d < 0 then DaysAgo(-d)
    else if d == 0 then Today
    else if d == 1 then Tomorrow
    else if d <= 7 then InDays(d)
    else ShortDate(target)
  }

  /** The text of a label; `shortDate` stands for the locale formatter. */
  function Phrase(rt: RelativeTime, shortDate: int -> string): string {
    match rt
    case DaysAgo(n) => Decimal(n) + " gün önce"
    case Today => "Bugün"
    case Tomorrow => "Yarın"
    case InDays(n) => Decimal(n) + " gün sonra"
    case ShortDate(t) => shortDate(t)
  }

  /** The decimal digits of `n`, as template-literal interpolation writes them. */
  function Decimal(n: nat): string
    decreases n
  {
    if n < 10 then [Digit(n)] else Decimal(n / 10) + [Digit(n % 10)]
  }

  function Digit(d: nat): char
    requires d < 10
  {
    (d + '0' as int) as char
  }

  /** The day count is the one `d` whose 24-hour window `(now + (d-1) days, now + d days]`
      contains `target`. */
  lemma RelativeDaysWindow(target: int, now: int, d: int)
    ensures RelativeDays(target, now) == d
        <==> now + (d - 1) * DayMs < target <= now + d * DayMs
  {
  }

  /** The five buckets, each as the window of `target - now` it covers. The windows are
      rolling 24-hour periods from `now`, not calendar days. */
  lemma RelativeTimeBuckets(target: int, now: int, n: nat)
    ensures FormatRelativeTime(target, now) == Today <==> now - DayMs < target <= now
    ensures FormatRelativeTime(target, now) == Tomorrow <==> now < target <= now + DayMs
    ensures FormatRelativeTime(target, now) == InDays(n)
        <==> 2 <= n <= 7 && now + (n - 1) * DayMs < target <= now + n * DayMs
    ensures FormatRelativeTime(target, now) == DaysAgo(n)
        <==> 1 <= n && now - (n + 1) * DayMs < target <= now - n * DayMs
    ensures FormatRelativeTime(target, now).ShortDate?
        <==> now + 7 * DayMs < target
    ensures FormatRelativeTime(target, now).ShortDate? ==> FormatRelativeTime(target, now).at == target
  {
    var d := RelativeDays(target, now);
    RelativeDaysWindow(target, now, 0);
    RelativeDaysWindow(target, now, 1);
    RelativeDaysWindow(target, now, n);
    RelativeDaysWindow(target, now, -(n as int));
    RelativeDaysWindow(target, now, d);
  }

  /** For a date stored as a UTC midnight (what the date picker produces), the day
      count is exactly the difference of UTC calendar days. */
  lemma MidnightTargetsCountCalendarDays(target: int, now: int)
    requires target % DayMs == 0
    ensures RelativeDays(target, now) == target / DayMs - now / DayMs
  {
    var d := target / DayMs - now / DayMs;
    assert target == DayMs * (target / DayMs);
    assert now == DayMs * (now / DayMs) + now % DayMs;
    assert target - now == d * DayMs - now % DayMs;
    RelativeDaysWindow(target, now, d);
  }

  /** A later time on the same UTC day as `now` is labelled "Yarın", not "Bugün". */
  lemma LaterTodayIsTomorrow(target: int, now: int)
    requires now < target && target / DayMs == now / DayMs
    ensures FormatRelativeTime(target, now) == Tomorrow
  {
    assert target == DayMs * (target / DayMs) + target % DayMs;
    assert now == DayMs * (now / DayMs) + now % DayMs;
    RelativeTimeBuckets(target, now, 0);
  }

  /** `calculateTotalExpenses`: 0 for a null or empty list, else the sum of the amounts. */
  function TotalExpenses(expenses: Option<seq<Expense>>): int {
    if expenses.None? || |expenses.value| == 0 then 0
    else SumBy(expenses.value, ExpenseAmount)
  }

  /** `calculateMonthlyRecurring`: the amounts of the active monthly subscriptions. */
  function MonthlyRecurring(subscriptions: Option<seq<Subscription>>): int {
    if subscriptions.None? || |subscriptions.value| == 0 then 0
    else SumBy(Filter(subscriptions.value, IsActiveMonthly), SubscriptionAmount)
  }

  /** `calculateYearlyRecurring`: twelve times each active monthly amount, plus each
      active yearly amount. */
  function YearlyRecurring(subscriptions: Option<seq<Subscription>>): int {
    if subscriptions.None? || |subscriptions.value| == 0 then 0
    else
      var monthly := SumBy(Filter(subscriptions.value, IsActiveMonthly), AnnualisedAmount);
      var yearly := SumBy(Filter(subscriptions.value, IsActiveYearly), SubscriptionAmount);
      monthly + yearly
  }

  /** The comparator `new Date(a.next_billing_at) - new Date(b.next_billing_at)`. */
  function NextBillingKey(s: Subscription): Key {
    Key(0, s.nextBillingAt)
  }

  /** `getUpcomingSubscriptions`: the active subscriptions, stably sorted by next billing
      time, cut at `limit` as `slice(0, limit)` does. */
  function UpcomingSubscriptions(subscriptions: Option<seq<Subscription>>, limit: int := 5): seq<Subscription> {
    if subscriptions.None? || |subscriptions.value| == 0 then []
    else SliceTo(SortBy(Filter(subscriptions.value, IsActive), NextBillingKey), limit)
  }

  /** A null list and an empty list both total 0, a single expense totals its own
      amount, and totals add up over concatenation: together, the sum of all amounts. */
  lemma {:induction false} TotalExpensesAdditive(a: seq<Expense>, b: seq<Expense>, e: Expense)
    ensures TotalExpenses(None) == 0 && TotalExpenses(Some([])) == 0
    ensures TotalExpenses(Some([e])) == e.amount
    ensures TotalExpenses(Some(a + b)) == TotalExpenses(Some(a)) + TotalExpenses(Some(b))
  {
    assert [e][..0] == [];
    assert SumBy([e], ExpenseAmount) == SumBy([], ExpenseAmount) + ExpenseAmount(e);
    SumAppend(a, b, ExpenseAmount);
  }

  /** A null or empty list gives 0, and appending a subscription adds its amount to the
      monthly total exactly when it is active and monthly; an inactive or yearly one adds
      nothing. */
  lemma {:induction false} MonthlyRecurringContribution(subs: seq<Subscription>, s: Subscription)
    ensures MonthlyRecurring(None) == 0 && MonthlyRecurring(Some([])) == 0
    ensures MonthlyRecurring(Some(subs + [s]))
         == MonthlyRecurring(Some(subs)) + (if s.active && s.billingPeriod == Monthly then s.amount else 0)
  {
    FilterAppend(subs, [s], IsActiveMonthly);
    assert Filter([s], IsActiveMonthly) == if IsActiveMonthly(s) then [s] else [];
    SumAppend(Filter(subs, IsActiveMonthly), Filter([s], IsActiveMonthly), SubscriptionAmount);
  }

  /** The yearly figure is twelve times the monthly figure plus the active yearly amounts. */
  lemma {:induction false} YearlyRecurringFormula(subscriptions: Option<seq<Subscription>>)
    ensures YearlyRecurring(subscriptions)
         == 12 * MonthlyRecurring(subscriptions)
          + SumBy(Filter(Items(subscriptions), IsActiveYearly), SubscriptionAmount)
  {
    SumScaled(Filter(Items(subscriptions), IsActiveMonthly), SubscriptionAmount, AnnualisedAmount, 12);
  }

  /** Sorted by `NextBillingKey` is non-decreasing in next billing time. */
  lemma NextBillingOrder(s: seq<Subscription>)
    requires SortedBy(s, NextBillingKey)
    ensures forall i, j :: 0 <= i < j < |s| ==> s[i].nextBillingAt <= s[j].nextBillingAt
  {
    forall i, j | 0 <= i < j < |s| ensures s[i].nextBillingAt <= s[j].nextBillingAt {
      assert !Before(NextBillingKey(s[j]), NextBillingKey(s[i]));
    }
  }

  /** The facts `getUpcomingSubscriptions` promises its callers: at most `limit` entries,
      all active, in non-decreasing order of next billing time, none invented or duplicated. */
  lemma {:induction false} UpcomingProperties(subscriptions: Option<seq<Subscription>>, limit: int)
    ensures var r := UpcomingSubscriptions(subscriptions, limit);
      && (0 <= limit ==> |r| <= limit)
      && (forall x :: x in r ==> x.active)
      && (forall i, j :: 0 <= i < j < |r| ==> r[i].nextBillingAt <= r[j].nextBillingAt)
      && multiset(r) <= multiset(Items(subscriptions))
  {
    var items := Items(subscriptions);
    var active := Filter(items, IsActive);
    var sorted := SortBy(active, NextBillingKey);
    var r := UpcomingSubscriptions(subscriptions, limit);
    UpcomingIsSortedPrefix(subscriptions, limit);
    SortByCorrect(active, NextBillingKey);
    PrefixSorted(sorted, NextBillingKey, |r|);
    NextBillingOrder(r);
    FilterMembers(items, IsActive);
    assert multiset(r) <= multiset(sorted) by {
      assert sorted == r + sorted[|r|..];
    }
    forall x | x in r ensures x.active {
      assert x in multiset(sorted);
      assert x in active;
    }
  }

  /** What the upcoming list is: the first entries of the stable sort of the active
      subset, all of it when `limit` allows, and no entry left out is due earlier than
      one that is shown. */
  lemma {:induction false} UpcomingIsSortedPrefix(subscriptions: Option<seq<Subscription>>, limit: int)
    ensures var active := Filter(Items(subscriptions), IsActive);
      var sorted := SortBy(active, NextBillingKey);
      var r := UpcomingSubscriptions(subscriptions, limit);
      && r == sorted[..|r|]
      && (0 <= limit ==> |r| == if limit < |active| then limit else |active|)
      && (forall i, j :: 0 <= i < |r| <= j < |sorted| ==> sorted[i].nextBillingAt <= sorted[j].nextBillingAt)
  {
    var items := Items(subscriptions);
    var active := Filter(items, IsActive);
    var sorted := SortBy(active, NextBillingKey);
    SortByCorrect(active, NextBillingKey);
    if items == [] {
      assert active == [];
    }
    assert UpcomingSubscriptions(subscriptions, limit) == SliceTo(sorted, limit);
  }
}

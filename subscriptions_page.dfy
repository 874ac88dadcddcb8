/**
  * The subscriptions page (frontend/app/subscriptions/page.tsx): the status
  * filter, the "active first, then soonest" display order, the monthly and
  * yearly totals, the counts on the filter buttons, and each card's
  * "upcoming" flag and badge.
  */
module SubscriptionsPage {
  import opened Domain
  import opened Seqs
  import opened StableSort
  import opened Wrappers
  import Format

  /** `7 * 24 * 60 * 60 * 1000`. */
  const WeekMs: int := 604800000

  /** The three filter buttons: "all", "active", "inactive". */
  datatype StatusFilter = All | ActiveOnly | InactiveOnly

  /** The predicate each filter applies. */
  predicate Shows(filter: StatusFilter, s: Subscription) {
    match filter
    case All => true
    case ActiveOnly => s.active
    case InactiveOnly => !s.active
  }

  /** `filteredSubscriptions`. */
  function FilterByStatus(subscriptions: seq<Subscription>, filter: StatusFilter): seq<Subscription> {
    Filter(subscriptions, s => Shows(filter, s))
  }

  /** The comparator: an active entry before an inactive one, then by next billing time. */
  function ActiveFirstKey(s: Subscription): Key {
    Key(if s.active then 0 else 1, s.nextBillingAt)
  }

  /** `sortedSubscriptions`: a stable sort of a copy of the filtered list. */
  function SortForDisplay(filtered: seq<Subscription>): seq<Subscription> {
    SortBy(filtered, ActiveFirstKey)
  }

  /** `activeSubscriptions`. */
  function ActiveSubscriptions(subscriptions: seq<Subscription>): seq<Subscription> {
    Filter(subscriptions, IsActive)
  }

  /** `totalMonthly`: active, then monthly, then the amounts added up. */
  function TotalMonthly(subscriptions: seq<Subscription>): int {
    SumBy(Filter(ActiveSubscriptions(subscriptions), IsMonthly), SubscriptionAmount)
  }

  /** `totalYearly`: active, then yearly, then the amounts added up. */
  function TotalYearly(subscriptions: seq<Subscription>): int {
    SumBy(Filter(ActiveSubscriptions(subscriptions), IsYearly), SubscriptionAmount)
  }

  /** The three counts on the filter buttons, as the page computes them. */
  datatype FilterCounts = FilterCounts(all: nat, active: nat, inactive: int)

  function Counts(subscriptions: seq<Subscription>): FilterCounts {
    var active := |ActiveSubscriptions(subscriptions)|;
    FilterCounts(|subscriptions|, active, |subscriptions| - active)
  }

  /** `isUpcoming`: billing is due in under seven days from `now`, past dates included. */
  predicate IsUpcoming(s: Subscription, now: int) {
    s.nextBillingAt - now < WeekMs
  }

  /** The badge variants a card can carry. */
  datatype Badge = Secondary | Warning | Success

  /** The badge variant of a card (the card's border follows the same three cases). */
  function BadgeFor(s: Subscription, now: int): Badge {
    if s.active then (if IsUpcoming(s, now) then Warning else Success) else Secondary
  }

  // ---------------------------------------------------------------------------

  /** Each filter keeps exactly the entries it names, in input order; "all" keeps the list. */
  lemma FilterByStatusExact(subscriptions: seq<Subscription>, filter: StatusFilter)
    ensures forall x :: x in FilterByStatus(subscriptions, filter)
             <==> x in subscriptions && Shows(filter, x)
    ensures filter == All ==> FilterByStatus(subscriptions, filter) == subscriptions
  {
    FilterMembers(subscriptions, s => Shows(filter, s));
    if filter == All {
      FilterKeepsAll(subscriptions, s => Shows(filter, s));
    }
  }

  /** The display order: every active entry before every inactive one, ascending next
      billing time among entries of the same status, and the same entries as the
      filtered list, which the sort leaves as it is (the sort runs on a copy). */
  lemma SortForDisplayOrder(filtered: seq<Subscription>)
    ensures var sorted := SortForDisplay(filtered);
      && (forall i, j :: 0 <= i < j < |sorted| ==> !(!sorted[i].active && sorted[j].active))
      && (forall i, j :: 0 <= i < j < |sorted| && sorted[i].active == sorted[j].active
            ==> sorted[i].nextBillingAt <= sorted[j].nextBillingAt)
      && multiset(sorted) == multiset(filtered)
      && |sorted| == |filtered|
  {
    var sorted := SortForDisplay(filtered);
    SortByCorrect(filtered, ActiveFirstKey);
    forall i, j | 0 <= i < j < |sorted|
      ensures !(!sorted[i].active && sorted[j].active)
      ensures sorted[i].active == sorted[j].active ==> sorted[i].nextBillingAt <= sorted[j].nextBillingAt
    {
      assert !Before(ActiveFirstKey(sorted[j]), ActiveFirstKey(sorted[i]));
    }
  }

  /** The page's monthly total is `calculateMonthlyRecurring` of the same list. */
  lemma TotalMonthlyIsMonthlyRecurring(subscriptions: seq<Subscription>)
    ensures TotalMonthly(subscriptions) == Format.MonthlyRecurring(Some(subscriptions))
  {
    FilterFilter(subscriptions, IsActive, IsMonthly, IsActiveMonthly);
  }

  /** The page's yearly total is only the active yearly amounts: `calculateYearlyRecurring`
      less twelve times the monthly figure. */
  lemma TotalYearlyIsYearlyPart(subscriptions: seq<Subscription>)
    ensures TotalYearly(subscriptions) == SumBy(Filter(subscriptions, IsActiveYearly), SubscriptionAmount)
    ensures TotalYearly(subscriptions)
         == Format.YearlyRecurring(Some(subscriptions)) - 12 * Format.MonthlyRecurring(Some(subscriptions))
  {
    FilterFilter(subscriptions, IsActive, IsYearly, IsActiveYearly);
    Format.YearlyRecurringFormula(Some(subscriptions));
  }

  /** Each button's count is the length of the list that button shows: the "Pasif" count,
      written as total minus active, is the number of inactive entries. */
  lemma CountsMatchFilters(subscriptions: seq<Subscription>)
    ensures Counts(subscriptions).all == |FilterByStatus(subscriptions, All)|
    ensures Counts(subscriptions).active == |FilterByStatus(subscriptions, ActiveOnly)|
    ensures Counts(subscriptions).inactive == |FilterByStatus(subscriptions, InactiveOnly)|
    ensures Counts(subscriptions).inactive >= 0
  {
    FilterKeepsAll(subscriptions, s => Shows(All, s));
    FilterComplementLength(subscriptions, IsActive, IsInactive);
    FilterSame(subscriptions, IsActive, s => Shows(ActiveOnly, s));
    FilterSame(subscriptions, IsInactive, s => Shows(InactiveOnly, s));
  }

  /** Two filters by the same predicate written twice agree. */
  lemma {:induction false} FilterSame(s: seq<Subscription>, p: Subscription -> bool, q: Subscription -> bool)
    requires forall x :: p(x) == q(x)
    ensures Filter(s, p) == Filter(s, q)
    decreases |s|
  {
    if s != [] {
      FilterSame(s[..|s| - 1], p, q);
    }
  }

  /** The badge, case by case; an overdue subscription counts as upcoming. */
  lemma BadgeCases(s: Subscription, now: int)
    ensures BadgeFor(s, now) == Secondary <==> !s.active
    ensures BadgeFor(s, now) == Warning <==> s.active && s.nextBillingAt < now + WeekMs
    ensures BadgeFor(s, now) == Success <==> s.active && s.nextBillingAt >= now + WeekMs
    ensures s.nextBillingAt <= now ==> IsUpcoming(s, now)
  {
  }

  /** The card also shows `formatRelativeTime` of the same date: every upcoming entry gets
      a day label rather than a bare date, and the only day label that is not upcoming is
      "7 gün sonra" for a date exactly seven days ahead. */
  lemma UpcomingAgreesWithLabel(s: Subscription, now: int)
    ensures IsUpcoming(s, now) ==> !Format.FormatRelativeTime(s.nextBillingAt, now).ShortDate?
    ensures !IsUpcoming(s, now) && !Format.FormatRelativeTime(s.nextBillingAt, now).ShortDate?
        ==> s.nextBillingAt - now == WeekMs && Format.FormatRelativeTime(s.nextBillingAt, now) == Format.InDays(7)
  {
    Format.RelativeTimeBuckets(s.nextBillingAt, now, 7);
  }
}

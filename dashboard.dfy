/**
  * The dashboard (frontend/app/page.tsx): the four figures, the five most
  * recent expenses and the five upcoming subscriptions, all derived from the
  * two lists the service returned (either may be `null`).
  */
module Dashboard {
  import opened Wrappers
  import opened Domain
  import opened Seqs
  import opened StableSort
  import Format
  import ExpensesPage
  import SubscriptionsPage

  /** `recentExpenses`: a copy sorted newest first, cut after five. */
  function RecentExpenses(expenses: Option<seq<Expense>>): seq<Expense> {
    SliceTo(SortBy(Items(expenses), ExpensesPage.NewestFirst), 5)
  }

  /** `activeSubscriptions`: the number of entries with `active` set; 0 for `null`. */
  function ActiveSubscriptionCount(subscriptions: Option<seq<Subscription>>): nat {
    |Filter(Items(subscriptions), IsActive)|
  }

  /** What the dashboard shows, before locale formatting; the "<n> toplam" line is the
      corrected one defined at the end of this module. */
  datatype DashboardView = DashboardView(
    totalExpenses: int,
    monthlyRecurring: int,
    yearlyRecurring: int,
    activeSubscriptions: nat,
    recent: seq<Expense>,
    upcoming: seq<Subscription>,
    totalDescription: string)

  function View(expenses: Option<seq<Expense>>, subscriptions: Option<seq<Subscription>>): DashboardView {
    DashboardView(
      Format.TotalExpenses(expenses),
      Format.MonthlyRecurring(subscriptions),
      Format.YearlyRecurring(subscriptions),
      ActiveSubscriptionCount(subscriptions),
      RecentExpenses(expenses),
      Format.UpcomingSubscriptions(subscriptions, 5),
      TotalDescription(subscriptions))
  }

  /** The badge variant of an upcoming entry: "success" when active, else "secondary". */
  function UpcomingBadge(s: Subscription): SubscriptionsPage.Badge {
    if s.active then SubscriptionsPage.Success else SubscriptionsPage.Secondary
  }

  /** At most five entries, newest first, every one of them from `expenses` and none
      twice: the first entries of the sorted copy, and nothing left out of it is newer
      than an entry shown. */
  lemma RecentExpensesProperties(expenses: Option<seq<Expense>>)
    ensures var sorted := SortBy(Items(expenses), ExpensesPage.NewestFirst);
      var r := RecentExpenses(expenses);
      && |r| == (if |Items(expenses)| < 5 then |Items(expenses)| else 5)
      && r == sorted[..|r|]
      && (forall i, j :: 0 <= i < j < |r| ==> r[i].createdAt >= r[j].createdAt)
      && (forall i, j :: 0 <= i < |r| <= j < |sorted| ==> sorted[i].createdAt >= sorted[j].createdAt)
      && multiset(r) <= multiset(Items(expenses))
  {
    var items := Items(expenses);
    var sorted := SortBy(items, ExpensesPage.NewestFirst);
    var r := RecentExpenses(expenses);
    ExpensesPage.GroupDisplayOrder(items);
    assert r == sorted[..|r|];
    assert multiset(r) <= multiset(sorted) by {
      assert sorted == r + sorted[|r|..];
    }
    forall i, j | 0 <= i < j < |r| ensures r[i].createdAt >= r[j].createdAt {
      assert r[i] == sorted[i] && r[j] == sorted[j];
    }
    forall i, j | 0 <= i < |r| <= j < |sorted| ensures sorted[i].createdAt >= sorted[j].createdAt {
    }
  }

  /** The active count is the number of active entries: 0 for `null` and for the empty
      list, one more for each active entry appended and none for an inactive one; the
      inactive entries make up the rest of the list, and it is the subscriptions page's
      own active count. */
  lemma ActiveSubscriptionCountExact(subscriptions: Option<seq<Subscription>>, x: Subscription)
    ensures ActiveSubscriptionCount(None) == 0 && ActiveSubscriptionCount(Some([])) == 0
    ensures ActiveSubscriptionCount(Some(Items(subscriptions) + [x]))
         == ActiveSubscriptionCount(subscriptions) + (if x.active then 1 else 0)
    ensures ActiveSubscriptionCount(subscriptions) + |Filter(Items(subscriptions), IsInactive)| == |Items(subscriptions)|
    ensures ActiveSubscriptionCount(subscriptions) == SubscriptionsPage.Counts(Items(subscriptions)).active
  {
    var s := Items(subscriptions);
    assert (s + [x])[..|s + [x]| - 1] == s;
    FilterComplementLength(s, IsActive, IsInactive);
  }

  /** The upcoming panel lists at most five entries, all active (so every badge reads
      "success"), soonest first; the figures are the three format helpers. */
  lemma DashboardPanels(expenses: Option<seq<Expense>>, subscriptions: Option<seq<Subscription>>)
    ensures var v := View(expenses, subscriptions);
      && |v.upcoming| <= 5
      && (forall x :: x in v.upcoming ==> UpcomingBadge(x) == SubscriptionsPage.Success)
      && (forall i, j :: 0 <= i < j < |v.upcoming| ==> v.upcoming[i].nextBillingAt <= v.upcoming[j].nextBillingAt)
      && v.yearlyRecurring == 12 * v.monthlyRecurring
           + SumBy(Filter(Items(subscriptions), IsActiveYearly), SubscriptionAmount)
  {
    Format.UpcomingProperties(subscriptions, 5);
    Format.YearlyRecurringFormula(subscriptions);
  }

  // ---------------------------------------------------------------------------
  // The "<n> toplam" line under the active count. The service encodes an empty
  // list as `null` (a nil slice), which the dashboard keeps as it is.

  /** `${subscriptions?.length} toplam` as written: for a `null` list the optional chain
      gives `undefined`, and the template prints it. */
  function TotalDescriptionAsWritten(subscriptions: Option<seq<Subscription>>): string {
    (match subscriptions
     case None => "undefined"
     case Some(s) => Format.Decimal(|s|)) + " toplam"
  }

  /** A user with no subscriptions, whose list the service sends as `null`, reads
      "undefined toplam". */
  lemma NullListShowsUndefined()
    ensures TotalDescriptionAsWritten(None) == "undefined toplam"
    ensures TotalDescriptionAsWritten(None) != TotalDescriptionAsWritten(Some([]))
  {
    assert Format.Decimal(0) == "0";
  }

  /** The line as evidently meant: the number of subscriptions, counting `null` as none,
      as the active count beside it does. */
  function TotalDescription(subscriptions: Option<seq<Subscription>>): (r: string)
    ensures r == TotalDescriptionAsWritten(Some(Items(subscriptions)))
  {
    Format.Decimal(|Items(subscriptions)|) + " toplam"
  }

  /** The corrected line agrees with the written one on every list the service sends
      as an array, shows "0 toplam" for `null`, and never counts fewer subscriptions
      than the active count. */
  lemma TotalDescriptionCounts(subscriptions: Option<seq<Subscription>>)
    ensures subscriptions.Some? ==> TotalDescription(subscriptions) == TotalDescriptionAsWritten(subscriptions)
    ensures subscriptions.None? ==> TotalDescription(subscriptions) == "0 toplam"
    ensures ActiveSubscriptionCount(subscriptions) <= |Items(subscriptions)|
  {
    assert Format.Decimal(0) == "0";
    FilterMembers(Items(subscriptions), IsActive);
  }
}

/**
  * How the client and the service fit together: whatever a form accepts passes
  * the service's checks and is stored with the same fields, and three worked
  * examples followed through the model (an expense from the form to its
  * category card, two subscriptions on the dashboard, and the day labels).
  */
module EndToEnd {
  import opened Wrappers
  import opened Domain
  import opened HttpApi
  import opened FormSchema
  import Format
  import ExpenseForm
  import SubscriptionForm
  import ExpensesHandler
  import SubscriptionsHandler
  import ExpensesPage
  import Seqs
  import StableSort

  /** Every request the expense form sends passes the service's checks when the user id
      is a UUID, and the stored expense carries the typed-in fields unchanged. */
  lemma ExpenseFormFeedsHandler(userId: string, v: ExpenseForm.ExpenseFormValues, parseUuid: string -> Option<Uuid>)
    requires ExpenseForm.ValidateExpense(v).Accepted?
    requires userId != "" && parseUuid(userId).Some?
    ensures var request := ExpenseForm.ExpenseRequest(userId, ExpenseForm.ValidateExpense(v).data);
      ExpensesHandler.CreateDecision(Request("POST", Some(request)), parseUuid)
      == Decision.Store(ExpensesHandler.NewExpense(parseUuid(userId).value, v.title, v.amount.value, v.currency, v.category))
  {
    var data := ExpenseForm.ValidateExpense(v).data;
    ExpenseForm.ValidateExpenseAccepts(v);
    ExpenseForm.RequestCarriesInput(userId, v);
    assert v.currency == data.currency.Code() && v.category == data.category.Label();
  }

  /** Every request the subscription form sends passes the service's checks when the user
      id is a UUID and the service reads back the instant the client's ISO string
      encodes; the stored subscription is active and carries the typed-in fields. */
  lemma SubscriptionFormFeedsHandler(
    userId: string,
    v: SubscriptionForm.SubscriptionFormValues,
    at: int,
    isoString: int -> string,
    parseUuid: string -> Option<Uuid>,
    parseTime: string -> Option<int>)
    requires SubscriptionForm.ValidateSubscription(v).Accepted?
    requires userId != "" && parseUuid(userId).Some?
    requires isoString(at) != "" && parseTime(isoString(at)) == Some(at)
    ensures var request := SubscriptionForm.SubscriptionRequest(userId, SubscriptionForm.ValidateSubscription(v).data, isoString(at));
      SubscriptionsHandler.CreateDecision(Request("POST", Some(request)), parseUuid, parseTime)
      == Decision.Store(SubscriptionsHandler.NewSubscription(
           parseUuid(userId).value, v.title, v.amount.value, v.currency, v.billingPeriod, at, true))
  {
    var data := SubscriptionForm.ValidateSubscription(v).data;
    SubscriptionForm.ValidateSubscriptionAccepts(v);
    SubscriptionForm.RequestCarriesInput(userId, v, isoString(at));
    assert v.currency == data.currency.Code();
  }

  /** The form part of the "Market" example: the title, the amount and the category
      typed into a new form, submitted, and the request succeeding. */
  method FillAndSubmitMarket(userId: string) returns (request: CreateExpenseRequest, formReset: bool, successCalls: nat)
    ensures request == CreateExpenseRequest(userId, "Market", 15050, "TRY", "Yiyecek")
    ensures formReset && successCalls == 1
  {
    var form := new ExpenseForm.ExpenseFormState(userId);
    var typed := ExpenseForm.ExpenseFormValues("Market", Some(15050), "TRY", "Yiyecek");
    form.Edit(ExpenseForm.SetTitle("Market"));
    form.Edit(ExpenseForm.SetAmount(Some(15050)));
    form.Edit(ExpenseForm.SetCategory("Yiyecek"));
    assert form.values == typed;
    assert TRY.Code() == "TRY" && Yiyecek.Label() == "Yiyecek";
    ExpenseForm.ValidateExpenseAccepts(typed);
    var sent := form.Submit();
    request := sent.value;
    ExpenseForm.RequestCarriesInput(userId, typed);
    form.Settle(true);
    formReset, successCalls := form.values == ExpenseForm.DefaultValues, form.successCalls;
  }

  /** An expense "Market" of 150.50 TRY under "Yiyecek": the form sends exactly those
      fields with the user's id, resets and reports success; the service stores them;
      and the refetched list shows one "Yiyecek" card whose subtotal is 150.50. */
  method MarketExpense(userId: string, parseUuid: string -> Option<Uuid>, createdAt: int)
    returns (request: CreateExpenseRequest, decision: Decision<ExpensesHandler.NewExpense>,
             formReset: bool, successCalls: nat, cards: seq<ExpensesPage.CategoryCard>)
    requires userId != "" && parseUuid(userId).Some?
    ensures request == CreateExpenseRequest(userId, "Market", 15050, "TRY", "Yiyecek")
    ensures decision == Decision.Store(ExpensesHandler.NewExpense(parseUuid(userId).value, "Market", 15050, "TRY", "Yiyecek"))
    ensures formReset && successCalls == 1
    ensures |cards| == 1 && cards[0].category == "Yiyecek" && cards[0].count == 1 && cards[0].total == 15050
  {
    request, formReset, successCalls := FillAndSubmitMarket(userId);
    decision := ExpensesHandler.CreateDecision(Request("POST", Some(request)), parseUuid);
    var stored := Expense("", parseUuid(userId).value.canonical, "Market", 15050, "TRY", "Yiyecek", createdAt);
    cards := ExpensesPage.CategoryCards(Some([stored]), ExpensesPage.AllCategories);
    assert [stored][..0] == [];
    assert ExpensesPage.CategoryOrder([stored]) == ["Yiyecek"];
    assert ExpensesPage.EntriesOrder(["Yiyecek"]) == ["Yiyecek"];
    assert ExpensesPage.InCategory([stored], "Yiyecek") == [stored];
    assert Seqs.SumBy([stored], ExpenseAmount) == Seqs.SumBy([], ExpenseAmount) + 15050;
  }

  /** One active monthly subscription of 100 due in three days and one inactive yearly one
      of 1200 due in ten: the dashboard's upcoming panel shows only the first, labelled
      "3 gün sonra", and the monthly figure is 100. */
  lemma DashboardUpcomingExample(now: int, user: string)
    ensures var first := Subscription("a", user, "A", 100, "TRY", Monthly, now + 3 * Format.DayMs, true, 0);
      var second := Subscription("b", user, "B", 1200, "TRY", Yearly, now + 10 * Format.DayMs, false, 0);
      && Format.UpcomingSubscriptions(Some([first, second]), 5) == [first]
      && Format.FormatRelativeTime(first.nextBillingAt, now) == Format.InDays(3)
      && Format.Phrase(Format.InDays(3), t => "") == "3 gün sonra"
      && Format.MonthlyRecurring(Some([first, second])) == 100
  {
    var first := Subscription("a", user, "A", 100, "TRY", Monthly, now + 3 * Format.DayMs, true, 0);
    var second := Subscription("b", user, "B", 1200, "TRY", Yearly, now + 10 * Format.DayMs, false, 0);
    var subs := [first, second];
    assert subs[..1] == [first] && [first][..0] == [];
    assert Seqs.Filter([first], IsActive) == Seqs.Filter([], IsActive) + [first];
    assert Seqs.Filter(subs, IsActive) == Seqs.Filter([first], IsActive) + [];
    assert Seqs.Filter([first], IsActiveMonthly) == Seqs.Filter([], IsActiveMonthly) + [first];
    assert Seqs.Filter(subs, IsActiveMonthly) == Seqs.Filter([first], IsActiveMonthly) + [];
    assert Seqs.SumBy([first], SubscriptionAmount) == Seqs.SumBy([], SubscriptionAmount) + 100;
    assert StableSort.SortBy([first], Format.NextBillingKey) == [first];
    Format.RelativeDaysWindow(first.nextBillingAt, now, 3);
  }

  /** The day labels for a fixed `now`: 24 hours later is "Yarın", three days later
      "3 gün sonra", two days earlier "2 gün önce". */
  lemma RelativeTimeExamples(now: int)
    ensures Format.FormatRelativeTime(now + Format.DayMs, now) == Format.Tomorrow
    ensures Format.FormatRelativeTime(now + 3 * Format.DayMs, now) == Format.InDays(3)
    ensures Format.FormatRelativeTime(now - 2 * Format.DayMs, now) == Format.DaysAgo(2)
    ensures Format.Phrase(Format.DaysAgo(2), t => "") == "2 gün önce"
  {
    Format.RelativeDaysWindow(now + Format.DayMs, now, 1);
    Format.RelativeDaysWindow(now + 3 * Format.DayMs, now, 3);
    Format.RelativeDaysWindow(now - 2 * Format.DayMs, now, -2);
  }
}

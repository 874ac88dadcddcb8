# Expense and subscription tracker — a verified model of its core

The tracker lets a user, identified by e-mail, record one-off expenses and
recurring subscriptions. A Next.js client shows a dashboard, an expenses page
grouped by category and a subscriptions page. A Go service stores the records
and answers JSON. This project models the logic both halves share:

- **The derivation helpers.** `frontend/lib/utils/format.ts` provides:
  - the expense total;
  - the active-monthly sum;
  - the annualised yearly figure;
  - the five upcoming subscriptions (active only, stably sorted by next billing time, cut to a prefix);
  - the day buckets of `formatRelativeTime`.
- **The pages' own derivations.**
  - Expenses page: the category filter; the group-by-category dictionary, built by pushing into arrays, and the order `Object.entries` lists its keys in (array-index keys first); the per-group total and currency; the in-place newest-first sort of each group.
  - Subscriptions page: the status filter, the "active first, then by date" order, the totals, the counts, the seven-day "upcoming" flag and the badge.
  - Dashboard: the five most recent expenses and the active count.
- **The two forms.** For each: its schema, its defaults, the request it builds, and the submit flow (busy flag, reset, success callback or alert).
- **The session store** (`UserProvider`). It holds the current user and a loading flag, mirrored into browser storage under the key `expense_tracker_user`.
- **The service's handlers.** `Create` and `GetByUserID` for expenses and for subscriptions, and `Create` for users. Each is an ordered chain of early-return checks that ends in the repository call.

The model uses these units and representations:

- Amounts are integers (minor units).
- Instants are integers (milliseconds); the current time is a parameter.
- A list the client may receive as `null` is an `Option<seq<T>>`, and `list || []` is `Items`.
- JavaScript's `sort` is stable, so every sort is the stable insertion sort `StableSort.SortBy` over a lexicographic key.
- Code that changes state keeps that form:
  - the grouping is a loop over a `map`;
  - the group sort is an insertion sort on an `array`;
  - the forms and the session store are classes whose methods update their fields.

Relative days could be read as calendar days ("a time later today is still today"). The code does not count them that way: it divides the difference in milliseconds by 86 400 000 and rounds up (`format.ts:33`). That makes rolling 24-hour windows: a moment later today is "Yarın". The model follows the code:

- `Format.LaterTodayIsTomorrow` shows the difference.
- `Format.MidnightTargetsCountCalendarDays` shows the two agree when the target falls on a UTC midnight.

Modules, one file each:

| module | file |
|---|---|
| `Wrappers` | `Option`, `Items` |
| `Domain` | the enumerations of `lib/constants.ts`, the records of `lib/types.ts` |
| `Seqs` | `filter`, the summing `reduce`, `slice(0, end)` |
| `StableSort` | the stable sort and its correctness |
| `Format` | `lib/utils/format.ts` |
| `ExpensesPage`, `SubscriptionsPage`, `Dashboard` | the three pages |
| `FormSchema`, `ExpenseForm`, `SubscriptionForm` | the two forms |
| `UserSession` | `contexts/user-context.tsx` |
| `HttpApi`, `ExpensesHandler`, `SubscriptionsHandler`, `UsersHandler` | the Go handlers |
| `EndToEnd` | form-to-handler agreement and worked examples |

## Model

| member | source | states |
|---|---|---|
| Domain.ParseCategory | frontend/lib/constants.ts:1-10 | a string is accepted exactly when it is the label of one of the eight categories, and the result carries that label |
| Domain.ParseCurrency | frontend/lib/constants.ts:14 | a string is accepted exactly when it is one of the four currency codes |
| Domain.ParseBillingPeriod | frontend/lib/constants.ts:18 | a string is accepted exactly when it is "monthly" or "yearly" |
| Domain.CategoryLabelRoundTrip | frontend/lib/constants.ts:1-10 | parsing a category's label gives the category back |
| Domain.CurrencyCodeRoundTrip | frontend/lib/constants.ts:14 | parsing a currency's code gives the currency back |
| Domain.BillingPeriodNameRoundTrip | frontend/lib/constants.ts:18 | parsing a period's name gives the period back |
| Seqs.SliceTo | frontend/lib/utils/format.ts:88 | `slice(0, end)` is a prefix of the list, of length min(`end`, length) for a non-negative end (the whole list when `end` is past its end), with JavaScript's meaning for a negative end |
| StableSort.SortByCorrect | frontend/lib/utils/format.ts:83-87 | the sort's result is ordered by the key and is a permutation of its input; for every key, the entries with that key keep their input order (stability) |
| Format.CeilDiv | frontend/lib/utils/format.ts:33 | `Math.ceil(a / b)` is the least q with a <= q*b |
| Format.RelativeDaysWindow | frontend/lib/utils/format.ts:32-33 | the day count is d exactly when the target lies in the 24-hour window (now+(d-1) days, now+d days] |
| Format.RelativeTimeBuckets | frontend/lib/utils/format.ts:35-45 | "Bugün" is exactly the window (now-24h, now]; "Yarın" is (now, now+24h]; "n gün sonra" holds for 2<=n<=7 in the n-th window; "n gün önce" holds for n>=1; the short date is used exactly beyond seven days and shows the target |
| Format.MidnightTargetsCountCalendarDays | frontend/lib/utils/format.ts:33 | for a target at UTC midnight, the day count equals the difference in calendar days |
| Format.LaterTodayIsTomorrow | frontend/lib/utils/format.ts:37-40 | a later moment of the same UTC day is labelled "Yarın", not "Bugün" |
| Format.TotalExpensesAdditive | frontend/lib/utils/format.ts:48-51 | the total is 0 for null and for the empty list, a single expense's amount for a one-element list, and totals add over concatenation, so it is the sum of all amounts |
| Format.MonthlyRecurringContribution | frontend/lib/utils/format.ts:53-60 | 0 for null and for the empty list; appending an entry adds its amount when it is active and monthly, and nothing otherwise |
| Format.YearlyRecurringFormula | frontend/lib/utils/format.ts:62-75 | the yearly figure is 12 times the monthly figure plus the active yearly amounts, for every list, null included |
| Format.NextBillingOrder | frontend/lib/utils/format.ts:83-87 | a list sorted by the next-billing key is non-decreasing in next billing time |
| Format.UpcomingProperties | frontend/lib/utils/format.ts:77-89 | at most `limit` entries, all active, in non-decreasing next billing time, and none that the input does not hold (as a multiset) |
| Format.UpcomingIsSortedPrefix | frontend/lib/utils/format.ts:82-88 | the result is the first min(limit, number active) entries of the stably sorted active entries, and none left out is due earlier than one shown |
| ExpensesPage.InCategoryExact | frontend/app/expenses/page.tsx:53 | an expense is in a category's sub-list exactly when it is in the list with that category; sub-lists distribute over concatenation |
| ExpensesPage.FilterExpensesExact | frontend/app/expenses/page.tsx:50-53 | "all" keeps the whole list (null as empty); a category keeps exactly the expenses with that label |
| ExpensesPage.CategoryOrderMembers | frontend/app/expenses/page.tsx:55-64 | a category is a dictionary key exactly when its group is non-empty; there are no keys exactly when the list is empty |
| ExpensesPage.CategoryOrderDistinct | frontend/app/expenses/page.tsx:55-64 | no category is a key twice |
| ExpensesPage.GroupPartition | frontend/app/expenses/page.tsx:55-64 | every expense lies in the group of its own category, and every group holds only its own category |
| ExpensesPage.GroupsPermutation | frontend/app/expenses/page.tsx:55-64 | the groups, concatenated in key order, are a permutation of the filtered list |
| ExpensesPage.GroupTotalsAddUp | frontend/app/expenses/page.tsx:164-167 | the group totals add up to the total of the filtered list |
| ExpensesPage.GroupByCategory | frontend/app/expenses/page.tsx:55-64 | the dictionary loop creates the keys in first-occurrence order and, under each key, collects exactly that category's expenses in input order |
| ExpensesPage.EntriesOrderCorrect | frontend/app/expenses/page.tsx:161 | `Object.entries` lists every key once; keys that are array indices come first, in ascending numeric order; the other keys keep the order they were created in |
| ExpensesPage.EntriesOrderOfNames | frontend/app/expenses/page.tsx:161 | when no key is an array index the listing is the creation order |
| ExpensesPage.CategoryLabelsAreNames | frontend/app/expenses/page.tsx:161 | no label of the eight categories is an array index, so no label key is moved ahead by `Object.entries` |
| ExpensesPage.LabelledCategoriesKeepCreationOrder | frontend/app/expenses/page.tsx:143-161 | when every expense carries one of the eight category labels, the cards come in first-occurrence order |
| ExpensesPage.NumeralCategoryListedFirst | frontend/app/expenses/page.tsx:161 | the keys "Yiyecek" then "2024", created in that order, are listed "2024" first |
| ExpensesPage.ShiftOlder | frontend/app/expenses/page.tsx:187-192 | the inner loop of one insertion step moves every strictly older element of the sorted prefix one place right and stops at the first element that is not older, leaving the rest of the array alone |
| ExpensesPage.InsertionPoint | frontend/app/expenses/page.tsx:187-192 | in a newest-first sorted list, the stable insertion puts an expense just before the first strictly older element |
| ExpensesPage.InsertIntoSortedPrefix | frontend/app/expenses/page.tsx:187-192 | one step of the in-place sort places the next element into the sorted prefix as the stable insertion does, leaving the rest of the array alone |
| ExpensesPage.SortNewestFirst | frontend/app/expenses/page.tsx:187-192 | the array, sorted in place, becomes the stable newest-first sort of its old contents |
| ExpensesPage.GroupDisplayOrder | frontend/app/expenses/page.tsx:187-192 | a displayed group is in non-increasing creation time, holds the same expenses, and keeps input order among equal times |
| ExpensesPage.GroupCard | frontend/app/expenses/page.tsx:161-192 | one card: its category's count, total and currency of the first expense in input order, and the group's expenses sorted newest first |
| ExpensesPage.CardsOfIndex | frontend/app/expenses/page.tsx:161 | the cards of a key list are one per key, the i-th being the card of the i-th key |
| ExpensesPage.CardsFor | frontend/app/expenses/page.tsx:161-192 | the loop over `Object.entries` yields exactly the cards of the keys, in the listing's order |
| ExpensesPage.CategoryCards | frontend/app/expenses/page.tsx:143-192 | one card per key, in `Object.entries` order, none when the filtered list is empty; each card holds its non-empty group's count, total, the currency of its first expense (or "TRY"), and the group sorted newest first |
| ExpensesPage.InheritedCategoryCrashes | frontend/app/expenses/page.tsx:55-64 | as written, one expense whose category names an inherited object member (such as "constructor") makes the grouping throw |
| ExpensesPage.GroupAsWrittenShape | frontend/app/expenses/page.tsx:55-64 | when the written reduce does not throw, it agrees with the corrected grouping; it does not throw when no category names an inherited member |
| SubscriptionsPage.FilterByStatusExact | frontend/app/subscriptions/page.tsx:54-58 | "active" keeps exactly the active entries, "inactive" exactly the inactive ones, and "all" keeps the list |
| SubscriptionsPage.SortForDisplayOrder | frontend/app/subscriptions/page.tsx:60-68 | no inactive entry precedes an active one; entries of the same status are in non-decreasing next billing time; the result is a permutation of the filtered list |
| SubscriptionsPage.TotalMonthlyIsMonthlyRecurring | frontend/app/subscriptions/page.tsx:70-73 | the page's monthly total equals the shared monthly helper's |
| SubscriptionsPage.TotalYearlyIsYearlyPart | frontend/app/subscriptions/page.tsx:74-76 | the page's yearly total is the active yearly amounts only, i.e. the helper's yearly figure minus 12 times the monthly one |
| SubscriptionsPage.CountsMatchFilters | frontend/app/subscriptions/page.tsx:170-184 | the three button counts equal the lengths of the three filtered lists, so "Pasif" is never negative |
| SubscriptionsPage.BadgeCases | frontend/app/subscriptions/page.tsx:234-241 | "secondary" exactly for inactive; "warning" exactly for active and due in under seven days; "success" otherwise; past dates count as upcoming |
| SubscriptionsPage.UpcomingAgreesWithLabel | frontend/app/subscriptions/page.tsx:212-215 | an upcoming entry never shows the short date; the only non-upcoming entry without a short date is due in exactly seven days ("7 gün sonra") |
| Dashboard.RecentExpensesProperties | frontend/app/page.tsx:87-93 | min(n, 5) entries, the first ones of the newest-first sorted copy, in non-increasing creation time, none newer left out, all drawn from the list |
| Dashboard.ActiveSubscriptionCountExact | frontend/app/page.tsx:84-86 | the active count is 0 for null and for the empty list and grows by one exactly for each active entry appended; with the inactive entries it makes up the list's length, and it equals the subscriptions page's active count |
| Dashboard.DashboardPanels | frontend/app/page.tsx:81-94 | the upcoming panel shows at most five entries, all with the "success" badge, in billing order, and the yearly card is 12 times the monthly card plus the active yearly amounts |
| Dashboard.NullListShowsUndefined | frontend/app/page.tsx:135 | as written, a null subscription list reads "undefined toplam", unlike an empty one |
| Dashboard.TotalDescription | frontend/app/page.tsx:135 | the corrected line is the written one applied to the list with null read as empty |
| Dashboard.TotalDescriptionCounts | frontend/app/page.tsx:135 | the corrected line agrees with the written one on every array, reads "0 toplam" for null, and counts no fewer entries than the active count |
| FormSchema.TitleIssues | frontend/components/expenses/expense-form.tsx:14 | the title is rejected, with the one title issue, exactly when it is empty |
| FormSchema.AmountIssues | frontend/components/expenses/expense-form.tsx:15 | the amount is accepted exactly when it is a number above 0; NaN and non-positive numbers give distinct issues |
| FormSchema.CurrencyIssues | frontend/components/expenses/expense-form.tsx:16 | the currency is accepted exactly when it is one of the four codes |
| FormSchema.CategoryIssues | frontend/components/expenses/expense-form.tsx:17-26 | the category is accepted exactly when it is one of the eight labels |
| FormSchema.BillingPeriodIssues | frontend/components/subscriptions/subscription-form.tsx:17 | the period is accepted exactly when it is "monthly" or "yearly" |
| FormSchema.NextBillingIssues | frontend/components/subscriptions/subscription-form.tsx:18 | the date is accepted exactly when it is non-empty |
| FormSchema.Revalidate | frontend/components/expenses/expense-form.tsx:44-50 | re-checking one field replaces that field's shown issues by the new verdict and keeps every other field's |
| ExpenseForm.ValidateExpenseAccepts | frontend/components/expenses/expense-form.tsx:13-27 | input is accepted exactly when the title is non-empty, the amount positive, the currency one of four and the category one of eight |
| ExpenseForm.FieldIssuesAgree | frontend/components/expenses/expense-form.tsx:13-27 | one field's rule checked alone reports, for that field, exactly what the whole schema reports, and nothing about other fields |
| ExpenseForm.ValidateExpenseRejects | frontend/components/expenses/expense-form.tsx:13-27 | a rejection lists each failing field and only those |
| ExpenseForm.RequestCarriesInput | frontend/components/expenses/expense-form.tsx:55-58 | the request is the user id plus the typed-in fields, unchanged |
| ExpenseForm.DefaultsInEnumerations | frontend/components/expenses/expense-form.tsx:46-49 | "TRY" and "Diğer" are members of their enumerations; an untouched form is rejected for its title and amount only |
| ExpenseForm.ExpenseFormState.constructor | frontend/components/expenses/expense-form.tsx:38-50 | a new form holds the defaults, is not submitted, is not busy and has sent nothing |
| ExpenseForm.ExpenseFormState.Edit | frontend/components/expenses/expense-form.tsx:44-50 | a change sets that input's value; before the first submission the shown issues stay; after it, the changed input's issues become the schema's verdict on the new values and the others stay |
| ExpenseForm.ExpenseFormState.Submit | frontend/components/expenses/expense-form.tsx:52-59 | rejected input shows its issues, sends nothing and marks the form submitted; accepted input makes the form busy, sends the request built from it and leaves the submitted mark as it was |
| ExpenseForm.ExpenseFormState.Settle | frontend/components/expenses/expense-form.tsx:59-67 | success resets the values and issues and calls back once; failure adds the alert and keeps the values; either way the form is not busy and counts as submitted, since `handleSubmit` marks it after `onSubmit` returns |
| SubscriptionForm.DatePart | frontend/components/subscriptions/subscription-form.tsx:46 | `split("T")[0]` is the longest prefix without a "T" |
| SubscriptionForm.ValidateSubscriptionAccepts | frontend/components/subscriptions/subscription-form.tsx:13-19 | input is accepted exactly when the title is non-empty, the amount positive, the currency one of four, the period monthly or yearly and the date non-empty |
| SubscriptionForm.FieldIssuesAgree | frontend/components/subscriptions/subscription-form.tsx:13-19 | one field's rule checked alone reports, for that field, exactly what the whole schema reports, and nothing about other fields |
| SubscriptionForm.ValidateSubscriptionRejects | frontend/components/subscriptions/subscription-form.tsx:13-19 | a rejection lists each failing field and only those |
| SubscriptionForm.RequestCarriesInput | frontend/components/subscriptions/subscription-form.tsx:55-60 | the request is the user id plus the typed-in fields, with the date replaced by the ISO string of the parsed date |
| SubscriptionForm.DefaultsSatisfyRules | frontend/components/subscriptions/subscription-form.tsx:43-47 | the defaults pass the currency, period and date rules; an untouched form is rejected for its title and amount only |
| SubscriptionForm.SubscriptionFormState.constructor | frontend/components/subscriptions/subscription-form.tsx:34-48 | a new form holds the defaults for the current date, is not submitted, is not busy and has sent nothing |
| SubscriptionForm.SubscriptionFormState.Edit | frontend/components/subscriptions/subscription-form.tsx:41-48 | a change sets that input's value; before the first submission the shown issues stay; after it, the changed input's issues become the schema's verdict on the new values and the others stay |
| SubscriptionForm.SubscriptionFormState.Submit | frontend/components/subscriptions/subscription-form.tsx:52-61 | rejected input shows its issues; an unreadable date gives the alert and no request; both mark the form submitted; otherwise the form is busy, the converted request is sent and the submitted mark stays as it was |
| SubscriptionForm.SubscriptionFormState.Settle | frontend/components/subscriptions/subscription-form.tsx:61-69 | success resets the values and issues and calls back once; failure adds the alert; either way the form is not busy and counts as submitted, since `handleSubmit` marks it after `onSubmit` returns |
| UserSession.KeyValueStore.GetItem | frontend/contexts/user-context.tsx:22 | reading a key gives its value, or nothing when it is absent |
| UserSession.KeyValueStore.SetItem | frontend/contexts/user-context.tsx:37 | writing changes that key only |
| UserSession.KeyValueStore.RemoveItem | frontend/contexts/user-context.tsx:28 | removing deletes that key only |
| UserSession.UserProvider.constructor | frontend/contexts/user-context.tsx:17-18 | a new provider has no user and is loading |
| UserSession.UserProvider.Hydrate | frontend/contexts/user-context.tsx:20-32 | a stored value that parses becomes the user; one that does not parse is removed and the user is unchanged; nothing stored changes nothing; loading ends in every case; no other key changes |
| UserSession.UserProvider.SetUser | frontend/contexts/user-context.tsx:34-41 | the user becomes the new one; storage holds its serialisation under the key, or loses the key for null; other keys are unchanged and storage mirrors the user afterwards |
| UserSession.SessionSurvivesReload | frontend/contexts/user-context.tsx:20-41 | after `setUser(u)`, a new provider over the same storage hydrates to `u` and finishes loading |
| UserSession.MalformedSessionIsDropped | frontend/contexts/user-context.tsx:22-31 | a malformed stored session leaves no user, removes the key and finishes loading |
| HttpApi.Answer | backend/internal/expenses/handler.go:58-65 | a rejection is written as it is; a stored record gives 500 when the repository fails and the repository's result otherwise |
| HttpApi.RejectionIgnoresRepository | backend/internal/expenses/handler.go:27-48 | a rejected request gets the same error whatever the repository would do |
| ExpensesHandler.CreateCheckOrder | backend/internal/expenses/handler.go:27-48 | non-POST gives 405, then an undecodable body 400 "invalid body", then an empty field or non-positive amount 400 "invalid input", then a non-UUID user id 400 "invalid user_id"; a rejection never depends on the repository |
| ExpensesHandler.CreateAccepted | backend/internal/expenses/handler.go:50-65 | the repository is reached exactly when every check passes, with the parsed id and the request's fields; its failure gives 500 "could not create expense" |
| ExpensesHandler.FreeFormCurrencyAndCategory | backend/internal/expenses/handler.go:39-42 | any non-empty currency and category pass; they are not checked against a list |
| ExpensesHandler.GetByUserIDOutcomes | backend/internal/expenses/handler.go:68-88 | non-GET gives 405, an empty user id 400, a repository failure 500 "could not fetch expenses", and otherwise the repository's list |
| SubscriptionsHandler.CreateCheckOrder | backend/internal/subscriptions/handler.go:28-55 | the five checks in order (method, body, fields and period, UUID, RFC 3339 time), the first failing one deciding the error, none depending on the repository |
| SubscriptionsHandler.CreateAccepted | backend/internal/subscriptions/handler.go:57-74 | the repository is reached exactly when every check passes, with the request's fields, the parsed time and `active` set; its failure gives 500 "could not create subscription" |
| SubscriptionsHandler.GetByUserIDOutcomes | backend/internal/subscriptions/handler.go:77-97 | non-GET gives 405, an empty user id 400, a repository failure 500 "could not fetch subscriptions", and otherwise the repository's list |
| UsersHandler.CreateOutcomes | backend/internal/users/handler.go:20-41 | an undecodable body gives 400 "invalid body"; an empty e-mail gives 400 "email required"; any other e-mail reaches the repository unchanged (failure 500); the HTTP method plays no part |
| EndToEnd.ExpenseFormFeedsHandler | backend/internal/expenses/handler.go:39-56 | every request the expense form sends passes the service's checks and is stored with the typed-in fields |
| EndToEnd.SubscriptionFormFeedsHandler | backend/internal/subscriptions/handler.go:40-65 | every request the subscription form sends passes the service's checks when the service reads back the sent instant, and is stored active with the typed-in fields |
| EndToEnd.FillAndSubmitMarket | frontend/components/expenses/expense-form.tsx:44-68 | typing "Market", 150.50 and "Yiyecek" into a new form and submitting sends exactly those fields with the user id; success resets the form and calls back once |
| EndToEnd.MarketExpense | frontend/components/expenses/expense-form.tsx:52-68 | an expense of 150.50 TRY under "Yiyecek" is sent as typed, stored, resets the form, and shows as one "Yiyecek" card of count 1 and total 150.50 |
| EndToEnd.DashboardUpcomingExample | frontend/lib/utils/format.ts:77-89 | of an active monthly entry due in three days and an inactive yearly one, only the first is upcoming, labelled "3 gün sonra", and the monthly figure is its amount |
| EndToEnd.RelativeTimeExamples | frontend/lib/utils/format.ts:29-45 | 24 hours ahead is "Yarın", three days ahead "3 gün sonra", two days back "2 gün önce" |

## Left out

- `formatCurrency`, `formatDate`, `formatDateShort`: locale formatting via `Intl`. The short date is a parameter of `Format.Phrase`.
- `new Date` parsing and `getTime`: instants are already-parsed integers. An invalid date (NaN in a comparator) is not modelled. The subscription form's date conversion is a parameter that may fail.
- Amounts are integers. Floating-point sums and rounding are not modelled.
- JSON encoding and decoding, `uuid.Parse` and RFC 3339 parsing (section 5.6 of RFC 3339) are parameters.
- Stored values that parse as JSON but are not a user object (a number, say) are not modelled: parsing gives a user, `null`, or a failure.
- Responses are modelled without their 200 status, headers or body framing.
- `frontend/lib/api.ts` is not part of this model: it is the fetch wrapper. The user-selection modal, the user guard, the header, the stats card, the layout and the motion constants are not part of this model either: they are network orchestration or presentation.
- The Postgres repositories, the reminder ticker and `main.go` are not part of this model: they are SQL, concurrency and plumbing. The repository is a function that may fail.
- React's effects, state setters and the `Promise.all` fetch flows are not modelled: lifecycle and network concurrency. The lists a page received are parameters.
- `console.error` calls and the empty-state texts are not modelled.
- The "copy, then sort" of the subscriptions page and the dashboard is on values: the model cannot observe that the original list keeps its order, since a function never changes its argument.
- ExpensesPage.GroupCard: the dictionary holds each group as a value, so the in-place sort runs on a fresh array filled from it; that the page's sort also reorders the dictionary's own array is not modelled (nothing reads that array afterwards).
- ExpenseForm.ExpenseFormState.Submit: requires the form not to be busy. The submit button is disabled while a request is in flight (expense-form.tsx:160), so a second submission is not modelled.
- SubscriptionForm.SubscriptionFormState.Submit: requires the form not to be busy, for the same reason (subscription-form.tsx:184).
- `useUser`'s guard against use outside the provider is not modelled.

## Findings

| source | as written | input that shows it | evidently intended | confidence | as-written member | corrected member |
|---|---|---|---|---|---|---|
| frontend/app/expenses/page.tsx:55-64 | the groups are collected in a `{}` object tested with `!acc[category]` | an expense whose category is "constructor" (the service accepts any non-empty category, backend/internal/expenses/handler.go:39): `acc["constructor"]` is the inherited function, no array is made, and `.push` throws, so the page fails to render | a dictionary without inherited members, grouping such an expense like any other | not executed | ExpensesPage.InheritedCategoryCrashes | ExpensesPage.GroupByCategory |
| frontend/app/page.tsx:135 | `${subscriptions?.length} toplam`, with the fetched list stored unchecked (line 54) | a user with no subscriptions: the repository returns a nil slice (backend/internal/subscriptions/postgres.go:46-55), which is sent as `null`, and the card reads "undefined toplam" | "0 toplam", the way the subscriptions page reads `null` as an empty list | not executed | Dashboard.NullListShowsUndefined | Dashboard.TotalDescription |

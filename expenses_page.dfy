/**
  * The expenses page (frontend/app/expenses/page.tsx): the category filter,
  * the grouping of the filtered expenses by category into a dictionary, and the
  * per-category cards, each with its total, its display currency and its
  * expenses sorted in place, newest first.
  */
module ExpensesPage {
  import opened Wrappers
  import opened Domain
  import opened Seqs
  import opened StableSort

  /** The selected filter: every category, or one of the eight. */
  datatype CategoryFilter = AllCategories | OnlyCategory(category: Category)

  /** The expenses of `s` whose category is `k`, in their order in `s`. */
  function InCategory(s: seq<Expense>, k: string): seq<Expense> {
    if s == [] then []
    else InCategory(s[..|s| - 1], k) + (if s[|s| - 1].category == k then [s[|s| - 1]] else [])
  }

  /** The distinct categories of `s`, each where it first occurs. */
  function CategoryOrder(s: seq<Expense>): seq<string> {
    if s == [] then []
    else
      var keys := CategoryOrder(s[..|s| - 1]);
      if s[|s| - 1].category in keys then keys else keys + [s[|s| - 1].category]
  }

  /** `filteredExpenses`. */
  function FilterExpenses(expenses: Option<seq<Expense>>, selected: CategoryFilter): seq<Expense> {
    match selected
    case AllCategories => Items(expenses)
    case OnlyCategory(c) => InCategory(Items(expenses), c.Label())
  }

  /** The group total: `(exp?.amount || 0)` summed; an absent or zero amount adds 0. */
  function GroupTotal(group: seq<Expense>): int {
    SumBy(group, ExpenseAmount)
  }

  /** `categoryExpenses[0]?.currency || "TRY"`: read before the group is sorted. */
  function GroupCurrency(group: seq<Expense>): string {
    if |group| == 0 || group[0].currency == "" then "TRY" else group[0].currency
  }

  /** The comparator `new Date(b.created_at) - new Date(a.created_at)`: newest first. */
  function NewestFirst(e: Expense): Key {
    Key(0, -e.createdAt)
  }

  /** One category card as the page renders it. */
  datatype CategoryCard = CategoryCard(
    category: string,
    count: nat,
    total: int,
    currency: string,
    items: seq<Expense>)

  /** The card of category `k`: its expenses in `filtered`, how many, their total, the
      currency of the first of them, and the expenses newest first. */
  function CardOf(filtered: seq<Expense>, k: string): CategoryCard {
    var g := InCategory(filtered, k);
    CategoryCard(k, |g|, GroupTotal(g), GroupCurrency(g), SortBy(g, NewestFirst))
  }

  // ---------------------------------------------------------------------------
  // The filter

  lemma {:induction false} InCategoryAppend(a: seq<Expense>, b: seq<Expense>, k: string)
    ensures InCategory(a + b, k) == InCategory(a, k) + InCategory(b, k)
    decreases |b|
  {
    if b == [] {
      assert a + b == a;
    } else {
      assert (a + b)[..|a + b| - 1] == a + b[..|b| - 1];
      InCategoryAppend(a, b[..|b| - 1], k);
    }
  }

  /** The category filter keeps exactly the expenses of that category: each single
      expense is kept iff its category matches, and the filter distributes over
      concatenation, so input order is kept. */
  lemma {:induction false} InCategoryExact(s: seq<Expense>, k: string)
    ensures forall x :: x in InCategory(s, k) <==> x in s && x.category == k
    ensures |InCategory(s, k)| <= |s|
    ensures forall x :: InCategory([x], k) == if x.category == k then [x] else []
    ensures forall t :: InCategory(s + t, k) == InCategory(s, k) + InCategory(t, k)
    decreases |s|
  {
    if s != [] {
      InCategoryExact(s[..|s| - 1], k);
      assert s == s[..|s| - 1] + [s[|s| - 1]];
    }
    forall x ensures InCategory([x], k) == if x.category == k then [x] else [] {
      assert [x][..0] == [];
    }
    forall t ensures InCategory(s + t, k) == InCategory(s, k) + InCategory(t, k) {
      InCategoryAppend(s, t, k);
    }
  }

  /** With "all" the page shows every expense; with one category, exactly that
      category's expenses, in input order. */
  lemma FilterExpensesExact(expenses: Option<seq<Expense>>, selected: CategoryFilter)
    ensures selected == AllCategories ==> FilterExpenses(expenses, selected) == Items(expenses)
    ensures selected.OnlyCategory? ==>
      forall x :: x in FilterExpenses(expenses, selected)
               <==> x in Items(expenses) && x.category == selected.category.Label()
  {
    if selected.OnlyCategory? {
      InCategoryExact(Items(expenses), selected.category.Label());
    }
  }

  // ---------------------------------------------------------------------------
  // The grouping: its specification

  /** A category is a key exactly when its group is non-empty. */
  lemma {:induction false} CategoryOrderMembers(s: seq<Expense>)
    ensures forall k :: k in CategoryOrder(s) <==> InCategory(s, k) != []
    ensures CategoryOrder(s) == [] <==> s == []
    decreases |s|
  {
    if s != [] {
      var s' := s[..|s| - 1];
      CategoryOrderMembers(s');
      forall k ensures k in CategoryOrder(s) <==> InCategory(s, k) != [] {
        assert InCategory(s, k) == InCategory(s', k) + (if s[|s| - 1].category == k then [s[|s| - 1]] else []);
      }
    }
  }

  /** No category is a key twice. */
  lemma {:induction false} CategoryOrderDistinct(s: seq<Expense>)
    ensures forall i, j :: 0 <= i < j < |CategoryOrder(s)| ==> CategoryOrder(s)[i] != CategoryOrder(s)[j]
    decreases |s|
  {
    if s != [] {
      CategoryOrderDistinct(s[..|s| - 1]);
    }
  }

  /** Every expense is in the group keyed by its own category and in no other. */
  lemma GroupPartition(s: seq<Expense>)
    ensures forall x :: x in s ==> x.category in CategoryOrder(s) && x in InCategory(s, x.category)
    ensures forall x, k :: x in InCategory(s, k) ==> x.category == k
  {
    CategoryOrderMembers(s);
    forall x | x in s ensures x.category in CategoryOrder(s) && x in InCategory(s, x.category) {
      InCategoryExact(s, x.category);
    }
    forall x, k | x in InCategory(s, k) ensures x.category == k {
      InCategoryExact(s, k);
    }
  }

  /** The groups of `keys`, one after the other. */
  function Concat(s: seq<Expense>, keys: seq<string>): seq<Expense> {
    if keys == [] then [] else Concat(s, keys[..|keys| - 1]) + InCategory(s, keys[|keys| - 1])
  }

  /** The totals of the groups of `keys`, added up. */
  function SumOfGroupTotals(s: seq<Expense>, keys: seq<string>): int {
    if keys == [] then 0 else SumOfGroupTotals(s, keys[..|keys| - 1]) + GroupTotal(InCategory(s, keys[|keys| - 1]))
  }

  lemma InCategorySnoc(s: seq<Expense>, x: Expense, k: string)
    ensures InCategory(s + [x], k) == InCategory(s, k) + (if x.category == k then [x] else [])
  {
    assert (s + [x])[..|s + [x]| - 1] == s;
  }

  /** How the keys grow by one expense: unchanged if its category is already a key, else
      its category is appended and its group is the expense alone. */
  lemma CategoryOrderStep(s: seq<Expense>, x: Expense)
    ensures x.category in CategoryOrder(s) ==> CategoryOrder(s + [x]) == CategoryOrder(s)
    ensures x.category !in CategoryOrder(s) ==>
      CategoryOrder(s + [x]) == CategoryOrder(s) + [x.category] && InCategory(s + [x], x.category) == [x]
  {
    assert (s + [x])[..|s + [x]| - 1] == s;
    if x.category !in CategoryOrder(s) {
      CategoryOrderMembers(s);
    }
  }

  /** Appending one expense adds it to the one group of `keys` that is its category. */
  lemma {:induction false} ConcatStep(s: seq<Expense>, x: Expense, keys: seq<string>)
    requires forall i, j :: 0 <= i < j < |keys| ==> keys[i] != keys[j]
    ensures multiset(Concat(s + [x], keys))
         == multiset(Concat(s, keys)) + (if x.category in keys then multiset{x} else multiset{})
    decreases |keys|
  {
    if keys != [] {
      var init, k := keys[..|keys| - 1], keys[|keys| - 1];
      ConcatStep(s, x, init);
      InCategorySnoc(s, x, k);
      assert Concat(s + [x], keys) == Concat(s + [x], init) + InCategory(s + [x], k);
      assert Concat(s, keys) == Concat(s, init) + InCategory(s, k);
      if x.category == k {
        assert x.category !in init;
        assert InCategory(s + [x], k) == InCategory(s, k) + [x];
      } else {
        assert x.category in keys <==> x.category in init;
        assert InCategory(s + [x], k) == InCategory(s, k);
      }
    }
  }

  /** The same step for the group totals. */
  lemma {:induction false} GroupTotalsStep(s: seq<Expense>, x: Expense, keys: seq<string>)
    requires forall i, j :: 0 <= i < j < |keys| ==> keys[i] != keys[j]
    ensures SumOfGroupTotals(s + [x], keys)
         == SumOfGroupTotals(s, keys) + (if x.category in keys then x.amount else 0)
    decreases |keys|
  {
    if keys != [] {
      var init, k := keys[..|keys| - 1], keys[|keys| - 1];
      GroupTotalsStep(s, x, init);
      InCategorySnoc(s, x, k);
      SumAppend(InCategory(s, k), if x.category == k then [x] else [], ExpenseAmount);
      assert x.category in keys <==> x.category in init || x.category == k;
      assert x.category == k ==> x.category !in init;
    }
  }

  /** The groups, taken in key order, hold every filtered expense once: their
      concatenation is a permutation of the list. */
  lemma {:induction false} GroupsPermutation(s: seq<Expense>)
    ensures multiset(Concat(s, CategoryOrder(s))) == multiset(s)
    decreases |s|
  {
    if s != [] {
      var s', x := s[..|s| - 1], s[|s| - 1];
      assert s == s' + [x];
      var keys := CategoryOrder(s');
      GroupsPermutation(s');
      CategoryOrderDistinct(s');
      ConcatStep(s', x, keys);
      CategoryOrderStep(s', x);
      var c, m := x.category, multiset(s');
      assert multiset(s) == m + multiset{x};
      if c in keys {
        assert CategoryOrder(s) == keys;
        assert multiset(Concat(s, keys)) == m + multiset{x};
      } else {
        assert CategoryOrder(s) == keys + [c];
        assert (keys + [c])[..|keys|] == keys;
        assert Concat(s, keys + [c]) == Concat(s, keys) + [x];
        assert multiset(Concat(s, keys)) == m;
        assert multiset(Concat(s, keys + [c])) == m + multiset{x};
      }
    }
  }

  /** The group totals add up to the total of the filtered list. */
  lemma {:induction false} GroupTotalsAddUp(s: seq<Expense>)
    ensures SumOfGroupTotals(s, CategoryOrder(s)) == SumBy(s, ExpenseAmount)
    decreases |s|
  {
    if s != [] {
      var s', x := s[..|s| - 1], s[|s| - 1];
      assert s == s' + [x];
      var keys := CategoryOrder(s');
      GroupTotalsAddUp(s');
      CategoryOrderDistinct(s');
      GroupTotalsStep(s', x, keys);
      CategoryOrderStep(s', x);
      assert SumBy(s, ExpenseAmount) == SumBy(s', ExpenseAmount) + x.amount;
      if x.category in keys {
        assert CategoryOrder(s) == keys;
      } else {
        assert CategoryOrder(s) == keys + [x.category];
        assert (keys + [x.category])[..|keys|] == keys;
        assert SumOfGroupTotals(s, keys + [x.category]) == SumOfGroupTotals(s, keys) + GroupTotal(InCategory(s, x.category));
        assert [x][..0] == [];
        assert GroupTotal([x]) == SumBy([], ExpenseAmount) + x.amount;
      }
    }
  }

  // ---------------------------------------------------------------------------
  // The grouping as the page computes it

  /** `groupedByCategory`: one pass over the filtered list, creating a key the first time
      a category is seen and pushing each expense onto its category's array. `keys` is the
      order the keys were created in. */
  method GroupByCategory(expenses: seq<Expense>) returns (keys: seq<string>, groups: map<string, seq<Expense>>)
    ensures keys == CategoryOrder(expenses)
    ensures forall k :: k in groups <==> k in keys
    ensures forall k :: k in groups ==> groups[k] == InCategory(expenses, k)
  {
    keys, groups := [], map[];
    var i := 0;
    while i < |expenses|
      invariant 0 <= i <= |expenses|
      invariant keys == CategoryOrder(expenses[..i])
      invariant forall k :: k in groups <==> k in keys
      invariant forall k :: k in groups ==> groups[k] == InCategory(expenses[..i], k)
    {
      var e := expenses[i];
      assert expenses[..i + 1][..i] == expenses[..i];
      if e.category !in groups {
        CategoryOrderMembers(expenses[..i]);
        groups := groups[e.category := []];
        keys := keys + [e.category];
      }
      groups := groups[e.category := groups[e.category] + [e]];
      i := i + 1;
    }
    assert expenses[..i] == expenses;
  }

  /** Where the insertion step stops: after every element of the sorted prefix that is
      not strictly older than `x`, which is where `Insert` puts `x`. */
  lemma InsertionPoint(x: Expense, sorted: seq<Expense>, j: nat)
    requires SortedBy(sorted, NewestFirst) && j <= |sorted|
    requires forall k :: j <= k < |sorted| ==> sorted[k].createdAt < x.createdAt
    requires 0 < j ==> x.createdAt <= sorted[j - 1].createdAt
    ensures Insert(x, sorted, NewestFirst) == sorted[..j] + [x] + sorted[j..]
  {
    forall k | 0 <= k < j ensures !Before(NewestFirst(x), NewestFirst(sorted[k])) {
      assert k == j - 1 || !Before(NewestFirst(sorted[j - 1]), NewestFirst(sorted[k]));
    }
    InsertAt(x, sorted, NewestFirst, j);
  }

  /** The inner loop of the insertion step: the elements of `a[..i]` strictly older than
      `x`, which sit at its end, each move one place right, opening a gap at `j`. */
  method ShiftOlder(a: array<Expense>, i: int, x: Expense) returns (j: int)
    modifies a
    requires 0 <= i < a.Length
    ensures 0 <= j <= i
    ensures forall k :: 0 <= k < j ==> a[k] == old(a[k])
    ensures forall k :: j < k <= i ==> a[k] == old(a[k - 1])
    ensures forall k :: i < k < a.Length ==> a[k] == old(a[k])
    ensures forall k :: j <= k < i ==> old(a[k]).createdAt < x.createdAt
    ensures 0 < j ==> x.createdAt <= a[j - 1].createdAt
  {
    j := i;
    while j > 0 && a[j - 1].createdAt < x.createdAt
      invariant 0 <= j <= i
      invariant forall k :: 0 <= k < j ==> a[k] == old(a[k])
      invariant forall k :: j < k <= i ==> a[k] == old(a[k - 1])
      invariant forall k :: i < k < a.Length ==> a[k] == old(a[k])
      invariant forall k :: j <= k < i ==> old(a[k]).createdAt < x.createdAt
    {
      a[j] := a[j - 1];
      j := j - 1;
    }
  }

  /** One step of the in-place insertion sort: `a[i]` moves left past the elements of
      the sorted prefix `a[..i]` that are strictly older, and lands where `Insert` puts it. */
  method InsertIntoSortedPrefix(a: array<Expense>, i: int)
    modifies a
    requires 0 <= i < a.Length
    requires SortedBy(a[..i], NewestFirst)
    ensures a[..i + 1] == Insert(old(a[i]), old(a[..i]), NewestFirst)
    ensures a[i + 1..] == old(a[i + 1..])
  {
    var x := a[i];
    ghost var before := a[..];
    ghost var sorted := a[..i];
    var j := ShiftOlder(a, i, x);
    a[j] := x;
    assert forall k :: j <= k < |sorted| ==> sorted[k].createdAt < x.createdAt;
    assert 0 < j ==> x.createdAt <= sorted[j - 1].createdAt;
    InsertionPoint(x, sorted, j);
    ghost var placed := sorted[..j] + [x] + sorted[j..];
    forall k | 0 <= k <= i ensures a[k] == placed[k] {
      if k < j {
        assert placed[k] == sorted[k];
      } else if j < k {
        assert |sorted[..j] + [x]| == j + 1;
        assert placed[k] == sorted[j..][k - j - 1] == sorted[k - 1];
      }
    }
    assert a[..i + 1] == placed;
    forall k | i < k < a.Length ensures a[k] == before[k] {
    }
    assert a[i + 1..] == before[i + 1..];
  }

  /** The page's sort of one group, in place: `categoryExpenses.sort(...)`, newest first,
      stable. */
  method SortNewestFirst(a: array<Expense>)
    modifies a
    ensures a[..] == SortBy(old(a[..]), NewestFirst)
  {
    ghost var orig := a[..];
    var i := 0;
    while i < a.Length
      invariant 0 <= i <= a.Length
      invariant a[..i] == SortBy(orig[..i], NewestFirst)
      invariant a[i..] == orig[i..]
    {
      SortByCorrect(orig[..i], NewestFirst);
      assert a[i] == orig[i];
      InsertIntoSortedPrefix(a, i);
      assert orig[..i + 1][..i] == orig[..i];
      assert a[i + 1..] == orig[i + 1..];
      i := i + 1;
    }
    assert a[..] == a[..a.Length];
    assert orig == orig[..a.Length];
  }

  /** One card: the total and the currency are read from the group as it is, then the
      group's array is sorted in place for display. */
  method GroupCard(filtered: seq<Expense>, category: string, group: seq<Expense>) returns (card: CategoryCard)
    requires group == InCategory(filtered, category)
    ensures card == CardOf(filtered, category)
    ensures card.count == |group| && card.total == GroupTotal(group) && card.currency == GroupCurrency(group)
    ensures card.items == SortBy(group, NewestFirst)
  {
    var total := GroupTotal(group);
    var currency := GroupCurrency(group);
    var a := new Expense[|group|](k requires 0 <= k < |group| => group[k]);
    assert a[..] == group;
    SortNewestFirst(a);
    card := CategoryCard(category, |group|, total, currency, a[..]);
  }

  // ---------------------------------------------------------------------------
  // The order `Object.entries` lists the dictionary's keys in: the keys that are
  // array indices first, in ascending numeric order, then the other keys in the
  // order they were created.

  /** Every character of `k` is a decimal digit. */
  predicate AllDigits(k: string) {
    forall i :: 0 <= i < |k| ==> '0' <= k[i] <= '9'
  }

  /** The number a string of decimal digits spells. */
  function DigitsValue(k: string): nat
    requires AllDigits(k)
  {
    if k == [] then 0 else DigitsValue(k[..|k| - 1]) * 10 + (k[|k| - 1] - '0') as nat
  }

  /** An array index: a decimal numeral without leading zeros, below 2^32 - 1. */
  predicate IsArrayIndex(k: string) {
    && |k| >= 1 && AllDigits(k)
    && (k[0] == '0' ==> |k| == 1)
    && DigitsValue(k) < 0xFFFF_FFFF
  }

  /** Where a key comes in the listing: array indices by value, then every other key. */
  function PropertyOrder(k: string): Key {
    if IsArrayIndex(k) then Key(0, DigitsValue(k)) else Key(1, 0)
  }

  /** `Object.entries(groupedByCategory)`: the keys, created in the order `keys`, as the
      listing orders them. */
  function EntriesOrder(keys: seq<string>): seq<string> {
    SortBy(keys, PropertyOrder)
  }

  /** The listing holds each key once more as often as `keys` does; the array indices
      come before every other key, in ascending numeric order; the other keys keep the
      order they were created in. */
  lemma EntriesOrderCorrect(keys: seq<string>)
    ensures var r := EntriesOrder(keys);
      && multiset(r) == multiset(keys) && |r| == |keys|
      && (forall i, j :: 0 <= i < j < |r| && IsArrayIndex(r[j]) ==> IsArrayIndex(r[i]))
      && (forall i, j :: 0 <= i < j < |r| && IsArrayIndex(r[j]) ==> DigitsValue(r[i]) < DigitsValue(r[j]) || r[i] == r[j])
      && WithKey(r, PropertyOrder, Key(1, 0)) == WithKey(keys, PropertyOrder, Key(1, 0))
  {
    var r := EntriesOrder(keys);
    SortByCorrect(keys, PropertyOrder);
    forall i, j | 0 <= i < j < |r| && IsArrayIndex(r[j])
      ensures IsArrayIndex(r[i]) && (DigitsValue(r[i]) < DigitsValue(r[j]) || r[i] == r[j])
    {
      assert !Before(PropertyOrder(r[j]), PropertyOrder(r[i]));
      if DigitsValue(r[i]) == DigitsValue(r[j]) {
        NumeralUnique(r[i], r[j]);
      }
    }
  }

  /** Two numerals without leading zeros that spell the same number are the same string. */
  lemma {:induction false} NumeralUnique(a: string, b: string)
    requires IsArrayIndex(a) && IsArrayIndex(b) && DigitsValue(a) == DigitsValue(b)
    ensures a == b
  {
    DigitsBound(a);
    DigitsBound(b);
    if |a| < |b| {
      Pow10Monotone(|a|, |b| - 1);
    } else if |b| < |a| {
      Pow10Monotone(|b|, |a| - 1);
    }
    DigitsInjective(a, b);
  }

  lemma {:induction false} Pow10Monotone(m: nat, n: nat)
    requires m <= n
    ensures Pow10(m) <= Pow10(n)
    decreases n
  {
    if m < n {
      Pow10Monotone(m, n - 1);
    }
  }

  /** 10^n. */
  function Pow10(n: nat): nat {
    if n == 0 then 1 else 10 * Pow10(n - 1)
  }

  /** A numeral of `n` digits is below 10^n, and at least 10^(n-1) without a leading zero. */
  lemma {:induction false} DigitsBound(k: string)
    requires AllDigits(k)
    ensures DigitsValue(k) < Pow10(|k|)
    ensures |k| >= 1 && k[0] != '0' ==> Pow10(|k| - 1) <= DigitsValue(k)
    decreases |k|
  {
    if k != [] {
      var init := k[..|k| - 1];
      DigitsBound(init);
      if |k| >= 2 && k[0] != '0' {
        assert init[0] == k[0];
      }
    }
  }

  lemma {:induction false} DigitsInjective(a: string, b: string)
    requires AllDigits(a) && AllDigits(b) && |a| == |b| && DigitsValue(a) == DigitsValue(b)
    ensures a == b
    decreases |a|
  {
    if a != [] {
      var ia, ib := a[..|a| - 1], b[..|b| - 1];
      var da, db := (a[|a| - 1] - '0') as int, (b[|b| - 1] - '0') as int;
      assert DigitsValue(ia) * 10 + da == DigitsValue(ib) * 10 + db;
      assert da == db && DigitsValue(ia) == DigitsValue(ib);
      DigitsInjective(ia, ib);
      assert a == ia + [a[|a| - 1]] && b == ib + [b[|b| - 1]];
    }
  }

  /** Keys none of which is an array index are listed in the order they were created. */
  lemma EntriesOrderOfNames(keys: seq<string>)
    requires forall i :: 0 <= i < |keys| ==> !IsArrayIndex(keys[i])
    ensures EntriesOrder(keys) == keys
  {
    SortByOneKey(keys, PropertyOrder, Key(1, 0));
  }

  /** No label of the eight categories is an array index. */
  lemma CategoryLabelsAreNames()
    ensures forall c: Category :: !IsArrayIndex(c.Label())
  {
  }

  /** When every expense carries one of the eight category labels, as the form sends,
      the cards are listed in first-occurrence order. */
  lemma LabelledCategoriesKeepCreationOrder(s: seq<Expense>)
    requires forall i :: 0 <= i < |s| ==> exists c: Category :: c.Label() == s[i].category
    ensures EntriesOrder(CategoryOrder(s)) == CategoryOrder(s)
  {
    var keys := CategoryOrder(s);
    CategoryLabelsAreNames();
    CategoryOrderMembers(s);
    forall n | 0 <= n < |keys| ensures !IsArrayIndex(keys[n]) {
      InCategoryExact(s, keys[n]);
      var x := InCategory(s, keys[n])[0];
      assert x in s && x.category == keys[n];
      var i :| 0 <= i < |s| && s[i] == x;
      var c: Category :| c.Label() == s[i].category;
    }
    EntriesOrderOfNames(keys);
  }

  /** A category the service accepts may be a numeral: then its card comes first,
      whenever it was created. */
  lemma NumeralCategoryListedFirst()
    ensures EntriesOrder(["Yiyecek", "2024"]) == ["2024", "Yiyecek"]
  {
    assert DigitsValue("2") == 2 && DigitsValue("20") == 20 && DigitsValue("202") == 202;
    assert "2024"[..3] == "202" && "202"[..2] == "20" && "20"[..1] == "2" && "2"[..0] == "";
    assert DigitsValue("2024") == 2024;
    assert PropertyOrder("2024") == Key(0, 2024);
    assert PropertyOrder("Yiyecek") == Key(1, 0);
    assert ["Yiyecek", "2024"][..1] == ["Yiyecek"] && ["Yiyecek"][..0] == [];
    assert SortBy(["Yiyecek"], PropertyOrder) == ["Yiyecek"];
  }

  /** The cards of the categories `keys`, in that order. */
  function CardsOf(filtered: seq<Expense>, keys: seq<string>): seq<CategoryCard> {
    if keys == [] then [] else CardsOf(filtered, keys[..|keys| - 1]) + [CardOf(filtered, keys[|keys| - 1])]
  }

  lemma {:induction false} CardsOfIndex(filtered: seq<Expense>, keys: seq<string>)
    ensures |CardsOf(filtered, keys)| == |keys|
    ensures forall i :: 0 <= i < |keys| ==> CardsOf(filtered, keys)[i] == CardOf(filtered, keys[i])
    decreases |keys|
  {
    if keys != [] {
      CardsOfIndex(filtered, keys[..|keys| - 1]);
    }
  }

  lemma CardsOfSnoc(filtered: seq<Expense>, keys: seq<string>, i: nat)
    requires i < |keys|
    ensures CardsOf(filtered, keys[..i + 1]) == CardsOf(filtered, keys[..i]) + [CardOf(filtered, keys[i])]
  {
    assert keys[..i + 1][..i] == keys[..i];
  }

  /** Every listed entry is a key of the dictionary with a non-empty group. */
  lemma EntriesAreGroups(filtered: seq<Expense>)
    ensures var entries := EntriesOrder(CategoryOrder(filtered));
      && |entries| == |CategoryOrder(filtered)|
      && forall n :: 0 <= n < |entries| ==>
           entries[n] in CategoryOrder(filtered) && InCategory(filtered, entries[n]) != []
  {
    var keys := CategoryOrder(filtered);
    var entries := EntriesOrder(keys);
    EntriesOrderCorrect(keys);
    CategoryOrderMembers(filtered);
    forall n | 0 <= n < |entries|
      ensures entries[n] in keys && InCategory(filtered, entries[n]) != []
    {
      assert entries[n] in multiset(entries);
    }
  }

  /** The cards for a filtered list: `Object.entries(groupedByCategory).map(...)`, one
      per category, in the order the entries are listed (for the eight category labels,
      first-occurrence order: see `CategoryLabelsAreNames` and
      `LabelledCategoriesKeepCreationOrder`). */
  method CardsFor(filtered: seq<Expense>) returns (cards: seq<CategoryCard>)
    ensures cards == CardsOf(filtered, EntriesOrder(CategoryOrder(filtered)))
  {
    var keys, groups := GroupByCategory(filtered);
    var entries := EntriesOrder(keys);
    EntriesAreGroups(filtered);
    cards := [];
    var i := 0;
    while i < |entries|
      invariant 0 <= i <= |entries|
      invariant cards == CardsOf(filtered, entries[..i])
    {
      var category := entries[i];
      var group := groups[category];
      CardsOfSnoc(filtered, entries, i);
      if |group| != 0 {
        var card := GroupCard(filtered, category, group);
        cards := cards + [card];
      }
      i := i + 1;
    }
    assert entries[..i] == entries;
  }

  /** The list part of the page: one card per category of the filtered list, array-index
      categories first and the others in first-occurrence order; none when the filter
      leaves nothing; each card holds its non-empty group's count, total, the currency of
      its first expense in input order, and its expenses newest first. Category labels
      are never array indices (`CategoryLabelsAreNames`). */
  method CategoryCards(expenses: Option<seq<Expense>>, selected: CategoryFilter) returns (cards: seq<CategoryCard>)
    ensures var filtered := FilterExpenses(expenses, selected);
      var keys := EntriesOrder(CategoryOrder(filtered));
      && multiset(keys) == multiset(CategoryOrder(filtered))
      && |cards| == |keys|
      && (cards == [] <==> filtered == [])
      && (forall i :: 0 <= i < |cards| ==> InCategory(filtered, keys[i]) != [])
      && (forall i :: 0 <= i < |cards| ==> cards[i] == CardOf(filtered, keys[i]))
  {
    var filtered := FilterExpenses(expenses, selected);
    cards := CardsFor(filtered);
    var keys := EntriesOrder(CategoryOrder(filtered));
    EntriesOrderCorrect(CategoryOrder(filtered));
    EntriesAreGroups(filtered);
    CardsOfIndex(filtered, keys);
    CategoryOrderMembers(filtered);
  }

  /** A group as displayed: newest first, the same expenses, and expenses created at the
      same instant in input order. */
  lemma GroupDisplayOrder(group: seq<Expense>)
    ensures var shown := SortBy(group, NewestFirst);
      && (forall i, j :: 0 <= i < j < |shown| ==> shown[i].createdAt >= shown[j].createdAt)
      && multiset(shown) == multiset(group)
      && (forall k :: WithKey(shown, NewestFirst, k) == WithKey(group, NewestFirst, k))
  {
    var shown := SortBy(group, NewestFirst);
    SortByCorrect(group, NewestFirst);
    forall i, j | 0 <= i < j < |shown| ensures shown[i].createdAt >= shown[j].createdAt {
      assert !Before(NewestFirst(shown[j]), NewestFirst(shown[i]));
    }
  }

  // ---------------------------------------------------------------------------
  // The dictionary the page builds is a plain `{}`: the prototype's members are
  // visible through `acc[category]`.

  /** The members every plain object inherits from `Object.prototype`. */
  const InheritedNames: set<string> := {
    "constructor", "__proto__", "hasOwnProperty", "isPrototypeOf",
    "propertyIsEnumerable", "toLocaleString", "toString", "valueOf",
    "__defineGetter__", "__defineSetter__", "__lookupGetter__", "__lookupSetter__"
  }

  datatype Grouping = Grouping(keys: seq<string>, groups: map<string, seq<Expense>>)

  /** The `reduce` exactly as written, over a `{}` accumulator. For a category that names
      an inherited member, `!acc[category]` is false, so no array is created, and
      `acc[category].push` is not a function: the render throws (`None`). */
  function GroupAsWritten(s: seq<Expense>): Option<Grouping> {
    if s == [] then Some(Grouping([], map[]))
    else
      match GroupAsWritten(s[..|s| - 1])
      case None => None
      case Some(acc) =>
        var e := s[|s| - 1];
        if e.category in acc.groups then Some(Grouping(acc.keys, acc.groups[e.category := acc.groups[e.category] + [e]]))
        else if e.category in InheritedNames then None
        else Some(Grouping(acc.keys + [e.category], acc.groups[e.category := [e]]))
  }

  /** One expense whose category is "constructor" makes the page throw. The service
      accepts any non-empty category, so such an expense can be stored. */
  lemma {:induction false} InheritedCategoryCrashes(s: seq<Expense>, i: nat)
    requires i < |s| && s[i].category in InheritedNames
    ensures GroupAsWritten(s) == None
    decreases |s|
  {
    var s' := s[..|s| - 1];
    if i < |s| - 1 {
      InheritedCategoryCrashes(s', i);
    } else {
      match GroupAsWritten(s')
      case None =>
      case Some(acc) =>
        GroupAsWrittenShape(s');
        assert s[i].category !in acc.groups;
    }
  }

  /** Without inherited names among the categories, the written reduce gives the
      grouping of `GroupByCategory`. */
  lemma {:induction false} GroupAsWrittenShape(s: seq<Expense>)
    ensures GroupAsWritten(s).Some? ==>
      && GroupAsWritten(s).value.keys == CategoryOrder(s)
      && (forall k :: k in GroupAsWritten(s).value.groups <==> k in CategoryOrder(s))
      && (forall k :: k in GroupAsWritten(s).value.groups ==> GroupAsWritten(s).value.groups[k] == InCategory(s, k))
      && (forall k :: k in CategoryOrder(s) ==> k !in InheritedNames)
    ensures (forall i :: 0 <= i < |s| ==> s[i].category !in InheritedNames) ==> GroupAsWritten(s).Some?
    decreases |s|
  {
    if s != [] {
      var s', e := s[..|s| - 1], s[|s| - 1];
      assert s == s' + [e];
      GroupAsWrittenShape(s');
      CategoryOrderStep(s', e);
      match GroupAsWritten(s')
      case None =>
      case Some(acc) =>
        if e.category in acc.groups {
          var g := acc.groups[e.category := acc.groups[e.category] + [e]];
          assert GroupAsWritten(s) == Some(Grouping(acc.keys, g));
          assert CategoryOrder(s) == CategoryOrder(s');
        } else if e.category !in InheritedNames {
          var g := acc.groups[e.category := [e]];
          assert GroupAsWritten(s) == Some(Grouping(acc.keys + [e.category], g));
          assert CategoryOrder(s) == CategoryOrder(s') + [e.category];
        }
    }
  }
}

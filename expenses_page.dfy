/** client/src/pages/Expenses.tsx: the four summary cards above the expense list:
    the total, this month's total, the number of categories and the category with
    the most spent. */
module ExpensesPage {
  import opened Common
  import opened Folds
  import opened UiTypes
  import ExpenseList

  /** Reads a timestamp's (year, month) in local time: `getFullYear`/`getMonth`. */
  type Calendar = int -> (int, int)

  function MonthOf(calendar: Calendar): Expense -> (int, int) {
    (e: Expense) => calendar(e.fields.date)
  }

  /** The filter on line 19: same month and year as now. */
  function InMonthOf(calendar: Calendar, now: int): Expense -> bool {
    (e: Expense) => MonthOf(calendar)(e) == calendar(now)
  }

  /** `thisMonthExpenses`: the amounts of exactly the expenses dated in the current
      month, which with non-negative amounts is at most the overall total. */
  function ThisMonth(expenses: seq<Expense>, calendar: Calendar, now: int): (t: real)
    ensures t == SumWhere(expenses, MonthOf(calendar), calendar(now), AmountOf)
    ensures (forall i :: 0 <= i < |expenses| ==> AmountOf(expenses[i]) >= 0.0) ==>
      0.0 <= t <= Sum(expenses, AmountOf)
  {
    FilterWhere(expenses, InMonthOf(calendar, now), MonthOf(calendar), calendar(now), AmountOf);
    assert (forall i :: 0 <= i < |expenses| ==> AmountOf(expenses[i]) >= 0.0) ==>
      0.0 <= SumWhere(expenses, MonthOf(calendar), calendar(now), AmountOf) <= Sum(expenses, AmountOf)
    by {
      if forall i :: 0 <= i < |expenses| ==> AmountOf(expenses[i]) >= 0.0 {
        SumWhereBound(expenses, MonthOf(calendar), calendar(now), AmountOf);
      }
    }
    Sum(Filter(expenses, InMonthOf(calendar, now)), AmountOf)
  }

  /** `categories`: the amount spent per category, one entry per category in order
      of first occurrence; the entries add up to the total. */
  function CategoryTotals(expenses: seq<Expense>): (g: seq<Group<string>>)
    ensures KeysOf(g, GroupKey) == ExpenseList.Categories(expenses)
    ensures forall i :: 0 <= i < |g| ==> g[i].total == SumWhere(expenses, CategoryOf, g[i].key, AmountOf)
    ensures Sum(g, GroupTotal) == Sum(expenses, AmountOf)
  {
    GroupAllRows(expenses, CategoryOf, AmountOf);
    GroupAll(expenses, CategoryOf, AmountOf)
  }

  /** There is a category exactly when there is an expense. */
  lemma CategoriesEmptyIff(expenses: seq<Expense>)
    ensures ExpenseList.Categories(expenses) == [] <==> expenses == []
  {
    if expenses != [] {
      assert CategoryOf(expenses[0]) in ExpenseList.Categories(expenses);
    }
  }

  /** `topCategory`: the first entry once sorted by amount, largest first; absent
      ('None') with no expenses. No category has more spent than it. */
  function TopCategory(expenses: seq<Expense>): (top: Option<string>)
    ensures top.None? <==> expenses == []
    ensures top.Some? ==>
      && top.value in ExpenseList.Categories(expenses)
      && forall c :: c in ExpenseList.Categories(expenses) ==>
           SumWhere(expenses, CategoryOf, c, AmountOf) <= SumWhere(expenses, CategoryOf, top.value, AmountOf)
  {
    var g := CategoryTotals(expenses);
    var sorted := SortDesc(g, GroupTotal);
    CategoriesEmptyIff(expenses);
    if sorted == [] then None
    else
      HeadOutspends(expenses, g, sorted);
      Some(sorted[0].key)
  }

  /** The head of the sorted entries names a category, and no category has more
      spent than it. */
  lemma HeadOutspends(expenses: seq<Expense>, g: seq<Group<string>>, sorted: seq<Group<string>>)
    requires g == CategoryTotals(expenses)
    requires sorted == SortDesc(g, GroupTotal) && sorted != []
    ensures sorted[0].key in ExpenseList.Categories(expenses)
    ensures forall c :: c in ExpenseList.Categories(expenses) ==>
      SumWhere(expenses, CategoryOf, c, AmountOf) <= SumWhere(expenses, CategoryOf, sorted[0].key, AmountOf)
  {
    SortedHeadIsLargest(g, GroupTotal);
    var j :| 0 <= j < |g| && g[j] == sorted[0];
    assert KeysOf(g, GroupKey)[j] == sorted[0].key;
    forall c | c in ExpenseList.Categories(expenses)
      ensures SumWhere(expenses, CategoryOf, c, AmountOf) <= SumWhere(expenses, CategoryOf, sorted[0].key, AmountOf)
    {
      var i :| 0 <= i < |g| && KeysOf(g, GroupKey)[i] == c;
      assert GroupTotal(g[i]) <= GroupTotal(sorted[0]);
    }
  }

  /** What the 'Top Category' card shows. */
  function TopLabel(top: Option<string>): (s: string)
    ensures top.None? ==> s == "None"
    ensures top.Some? ==> s == top.value
  {
    if top.Some? then top.value else "None"
  }

  datatype Cards = Cards(total: real, thisMonth: real, categories: nat, top: string)

  /** The four cards: the total and this month's part of it, as many categories as
      the expense list has tabs (none exactly when there are no expenses), and the
      top category's name. */
  function PageCards(expenses: seq<Expense>, calendar: Calendar, now: int): (r: Cards)
    ensures r.total == Sum(expenses, AmountOf)
    ensures r.thisMonth == SumWhere(expenses, MonthOf(calendar), calendar(now), AmountOf)
    ensures r.categories == |ExpenseList.Categories(expenses)| <= |expenses|
    ensures r.categories == 0 <==> expenses == []
    ensures expenses == [] ==> r.top == "None"
    ensures expenses != [] ==> r.top in ExpenseList.Categories(expenses)
  {
    var g := CategoryTotals(expenses);
    assert |g| == |KeysOf(g, GroupKey)|;
    CategoriesEmptyIff(expenses);
    Cards(Sum(expenses, AmountOf), ThisMonth(expenses, calendar, now), |g|, TopLabel(TopCategory(expenses)))
  }
}

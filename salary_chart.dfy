/** client/src/components/dashboard/SalaryVsSpentChart.tsx: the income, expense and
    net bars and the per-category pie. Despite its name the chart reads the
    expense slice's `monthlySalary` but never uses it: income is the invoices'
    total, so the salary is not an input here. */
module SalaryChart {
  import opened Common
  import opened Folds
  import opened UiTypes
  import ExpenseList
  import ExpensesPage

  datatype Bar = Bar(name: string, amount: real)

  /** `barData`: Income, Expenses and their difference, Net. */
  function Bars(invoices: seq<Invoice>, expenses: seq<Expense>): (b: seq<Bar>)
    ensures |b| == 3
    ensures b[0] == Bar("Income", Sum(invoices, TotalOf))
    ensures b[1] == Bar("Expenses", Sum(expenses, AmountOf))
    ensures b[2].name == "Net" && b[2].amount == b[0].amount - b[1].amount
  {
    var income := Sum(invoices, TotalOf);
    var spent := Sum(expenses, AmountOf);
    [Bar("Income", income), Bar("Expenses", spent), Bar("Net", income - spent)]
  }

  datatype Slice = Slice(name: string, value: real)

  function SliceValue(s: Slice): real { s.value }

  /** `pieData`: one slice per category, in order of first occurrence, valued at
      what was spent in it; the slices add up to the Expenses bar. */
  function PieData(expenses: seq<Expense>): (p: seq<Slice>)
    ensures |p| == |ExpenseList.Categories(expenses)|
    ensures forall i :: 0 <= i < |p| ==>
      p[i].name == ExpenseList.Categories(expenses)[i]
      && p[i].value == SumWhere(expenses, CategoryOf, p[i].name, AmountOf)
    ensures Sum(p, SliceValue) == Sum(expenses, AmountOf)
  {
    var g := ExpensesPage.CategoryTotals(expenses);
    var p := seq(|g|, i requires 0 <= i < |g| => Slice(g[i].key, g[i].total));
    assert forall i :: 0 <= i < |g| ==> KeysOf(g, GroupKey)[i] == g[i].key;
    SumPointwise(p, SliceValue, g, GroupTotal);
    p
  }

  /** The pie is drawn iff there is a slice, which is iff there is an expense;
      otherwise 'No expenses recorded' is shown. */
  function ShowsPie(expenses: seq<Expense>): (b: bool)
    ensures b <==> expenses != []
  {
    ExpensesPage.CategoriesEmptyIff(expenses);
    |PieData(expenses)| > 0
  }

  const Colors: seq<string> := ["#3b82f6", "#10b981", "#f59e0b", "#ef4444", "#8b5cf6", "#06b6d4"]

  /** `COLORS[index % COLORS.length]`. */
  function SliceColor(index: nat): (c: string)
    ensures c in Colors
  {
    Colors[index % |Colors|]
  }

  /** Two slices share a colour exactly when their positions differ by a multiple
      of six; in particular neighbouring slices never do. */
  lemma ColorsCycle(i: nat, j: nat)
    ensures SliceColor(i) == SliceColor(j) <==> i % 6 == j % 6
    ensures SliceColor(i) != SliceColor(i + 1)
  {
    assert NoDup(Colors);
  }
}

/** client/src/components/dashboard/EnhancedStatsPanel.tsx: the six dashboard cards
    measured against the expense slice's `monthlySalary`: revenue, expenses, net
    income, the savings rate and its grade, paid invoices, and the budget status. */
module EnhancedStatsPanel {
  import opened Common
  import opened Folds
  import opened UiTypes
  import InvoicesPage
  import SalaryManager
  import ExpenseSlice

  /** `monthlySalary > 0 ? (remainingBudget / monthlySalary) * 100 : 0`: negative
      exactly when the budget is overspent. */
  function SavingsRate(salary: real, remaining: real): (rate: real)
    ensures salary > 0.0 ==> rate * salary == remaining * 100.0
    ensures salary <= 0.0 ==> rate == 0.0
    ensures salary > 0.0 ==> (rate >= 0.0 <==> remaining >= 0.0)
  {
    if salary > 0.0 then
      var rate := remaining / salary * 100.0;
      assert rate * salary == remaining * 100.0;
      ScaleCompare(rate, 0.0, salary);
      rate
    else 0.0
  }

  /** With a salary, the savings rate and the salary manager's spending percentage
      make up the whole; within the budget the rate is the manager's saved
      percentage, beyond it the rate goes negative where the manager shows 0. */
  lemma RatesComplement(salary: real, spent: real)
    requires salary > 0.0
    ensures SavingsRate(salary, salary - spent) + SalaryManager.SpendingPercentage(salary, spent) == 100.0
    ensures spent <= salary ==>
      SavingsRate(salary, salary - spent) == SalaryManager.SavingsPercentage(salary, SalaryManager.ActualSavings(salary - spent))
    ensures spent > salary ==>
      SavingsRate(salary, salary - spent) < 0.0 == SalaryManager.SavingsPercentage(salary, SalaryManager.ActualSavings(salary - spent))
  {
    var a := SavingsRate(salary, salary - spent);
    var b := SalaryManager.SpendingPercentage(salary, spent);
    var left, used := (salary - spent) * 100.0, spent * 100.0;
    ScaledSum(a, b, salary, left, used);
    var whole := a + b;
    assert whole * salary == left + used;
    assert left + used == 100.0 * salary;
    ScaleCompare(whole, 100.0, salary);
    var x := SalaryManager.ActualSavings(salary - spent);
    var c := SalaryManager.SavingsPercentage(salary, x);
    if spent <= salary {
      assert x == salary - spent;
      ScaleCompare(a, c, salary);
    } else {
      assert x == 0.0 && c * salary == 0.0 * salary;
      ScaleCompare(c, 0.0, salary);
      ScaleCompare(a, 0.0, salary);
    }
  }

  // ---------------------------------------------------------------------------
  // The savings card's grade (lines 58-59)

  datatype Grade = Excellent | Good | Improve

  datatype Trend = Positive | Neutral | Negative

  function GradeRank(g: Grade): nat {
    match g
    case Improve => 0
    case Good => 1
    case Excellent => 2
  }

  /** `change`: Excellent from 20%, Good from 10%, Improve below. */
  function GradeFor(rate: real): (g: Grade)
    ensures g == Excellent <==> rate >= 20.0
    ensures g == Improve <==> rate < 10.0
  {
    if rate >= 20.0 then Excellent else if rate >= 10.0 then Good else Improve
  }

  /** `changeType`, written out again with the same thresholds. */
  function TrendFor(rate: real): (t: Trend)
    ensures t == Positive <==> rate >= 20.0
    ensures t == Negative <==> rate < 10.0
  {
    if rate >= 20.0 then Positive else if rate >= 10.0 then Neutral else Negative
  }

  /** A higher rate never grades lower, and grade and trend always go together. */
  lemma GradeMonotone(a: real, b: real)
    requires a <= b
    ensures GradeRank(GradeFor(a)) <= GradeRank(GradeFor(b))
    ensures TrendFor(a) == (match GradeFor(a) case Excellent => Positive case Good => Neutral case Improve => Negative)
  {
  }

  // ---------------------------------------------------------------------------
  // The budget card (lines 73-78)

  /** Every field of the card switches on `remainingBudget >= 0`: the amount left,
      or how much was overspent, shown as a positive number after a minus sign. */
  datatype Budget = OnTrack(left: real) | OverBudget(overspent: real)

  function BudgetStatus(remaining: real): (b: Budget)
    ensures b.OnTrack? <==> remaining >= 0.0
    ensures b.OnTrack? ==> b.left == remaining
    ensures b.OverBudget? ==> b.overspent > 0.0 && b.overspent == -remaining
  {
    if remaining >= 0.0 then OnTrack(remaining) else OverBudget(-remaining)
  }

  // ---------------------------------------------------------------------------
  // The panel

  datatype Panel = Panel(
    revenue: real, expenses: real, net: real,
    savingsRate: real, grade: Grade, trend: Trend,
    paid: nat, count: nat, budget: Budget)

  /** The panel for the invoices, the expenses and the expense slice's salary: net
      income is revenue less spending, the budget is on track exactly when spending
      stays within the salary, and a positive salary not yet reached by spending
      grades by how much of it is left. */
  function PanelFor(invoices: seq<Invoice>, expenses: seq<Expense>, monthlySalary: real): (r: Panel)
    ensures r.revenue == Sum(invoices, TotalOf) && r.expenses == Sum(expenses, AmountOf)
    ensures r.net == r.revenue - r.expenses
    ensures r.budget.OnTrack? <==> r.expenses <= monthlySalary
    ensures monthlySalary > 0.0 ==> r.savingsRate * monthlySalary == (monthlySalary - r.expenses) * 100.0
    ensures monthlySalary <= 0.0 ==> r.savingsRate == 0.0 && r.grade == Improve
    ensures monthlySalary > 0.0 ==> (r.savingsRate >= 0.0 <==> r.budget.OnTrack?)
    ensures r.paid == CountWhere(invoices, StatusOf, Paid) <= r.count == |invoices|
  {
    var revenue := Sum(invoices, TotalOf);
    var spent := Sum(expenses, AmountOf);
    var remaining := monthlySalary - spent;
    var rate := SavingsRate(monthlySalary, remaining);
    CountWhereBound(invoices, StatusOf, Paid);
    Panel(revenue, spent, revenue - spent, rate, GradeFor(rate), TrendFor(rate),
          InvoicesPage.StatusCount(invoices, Paid), |invoices|, BudgetStatus(remaining))
  }

  /** The panel and the salary manager read two different salaries: on a fresh
      session with nothing spent, this panel grades the expense slice's demo
      salary as Excellent savings, while the salary manager, reading the user
      slice's salary of 0, asks for a salary to be set. */
  lemma TwoSalaries()
    ensures PanelFor([], [], ExpenseSlice.DemoSalary).grade == Excellent
    ensures PanelFor([], [], ExpenseSlice.DemoSalary).budget == OnTrack(5000.0)
    ensures SalaryManager.AnalyticsMessage(0.0, 0.0) == SalaryManager.SetSalaryPrompt
  {
    var r := PanelFor([], [], ExpenseSlice.DemoSalary);
    assert r.expenses == 0.0;
    assert r.savingsRate * 5000.0 == 5000.0 * 100.0;
    ScaleCompare(r.savingsRate, 100.0, 5000.0);
  }
}

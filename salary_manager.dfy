/** client/src/components/dashboard/SalaryManager.tsx: the spending metrics shown
    beside the monthly salary, the thresholds that grade them, and the component's
    own editing state for the salary text and the 50/30/20-style allocation. */
module SalaryManager {
  import opened Common
  import opened Folds
  import opened UiTypes

  // ---------------------------------------------------------------------------
  // Spending metrics (lines 34-45)

  /** `salary > 0 ? (totalExpenses / salary) * 100 : 0`. */
  function SpendingPercentage(salary: real, spent: real): (p: real)
    ensures salary > 0.0 ==> p * salary == spent * 100.0
    ensures salary <= 0.0 ==> p == 0.0
    ensures salary > 0.0 && spent >= 0.0 ==> p >= 0.0
    ensures salary > 0.0 ==> (p > 100.0 <==> spent > salary)
  {
    if salary > 0.0 then
      var p := spent / salary * 100.0;
      assert p * salary == spent * 100.0;
      ScaleCompare(p, 100.0, salary);
      ScaleCompare(spent, salary, 100.0);
      p
    else 0.0
  }

  /** `Math.max(0, remainingAmount)`. */
  function ActualSavings(remaining: real): (a: real)
    ensures a >= 0.0 && a >= remaining
    ensures a == remaining || a == 0.0
  {
    if remaining > 0.0 then remaining else 0.0
  }

  /** `salary > 0 ? (actualSavings / salary) * 100 : 0`. */
  function SavingsPercentage(salary: real, saved: real): (p: real)
    ensures salary > 0.0 ==> p * salary == saved * 100.0
    ensures salary <= 0.0 ==> p == 0.0
  {
    if salary > 0.0 then saved / salary * 100.0 else 0.0
  }

  /** Within the salary, the spent and the saved percentages make up the whole;
      beyond it, nothing counts as saved and more than all of it is spent. */
  lemma PercentagesAddUp(salary: real, spent: real)
    requires salary > 0.0
    ensures var saved := SavingsPercentage(salary, ActualSavings(salary - spent));
      && (spent <= salary ==> SpendingPercentage(salary, spent) + saved == 100.0)
      && (spent > salary ==> saved == 0.0 && SpendingPercentage(salary, spent) > 100.0)
  {
    var p := SpendingPercentage(salary, spent);
    var q := SavingsPercentage(salary, ActualSavings(salary - spent));
    if spent <= salary {
      assert ActualSavings(salary - spent) == salary - spent;
      assert q * salary == (salary - spent) * 100.0;
      assert p * salary == spent * 100.0;
      ScaledSum(p, q, salary, spent * 100.0, (salary - spent) * 100.0);
      ScaleCompare(p + q, 100.0, salary);
    }
  }

  /** The three suggested amounts. The "home" figure uses the `wants` share and the
      "other" figure the `needs` share. */
  datatype Suggestions = Suggestions(savings: real, home: real, other: real)

  /** `salary * (alloc.x / 100)` for each share: an allocation that adds up to 100
      splits the salary exactly. */
  function Suggested(salary: real, alloc: Allocation): (r: Suggestions)
    ensures r.savings * 100.0 == salary * alloc.savings
    ensures r.home * 100.0 == salary * alloc.wants
    ensures r.other * 100.0 == salary * alloc.needs
    ensures AllocationTotal(alloc) == 100.0 ==> r.savings + r.home + r.other == salary
  {
    var r := Suggestions(salary * (alloc.savings / 100.0), salary * (alloc.wants / 100.0), salary * (alloc.needs / 100.0));
    assert r.savings + r.home + r.other == salary * AllocationTotal(alloc) / 100.0;
    r
  }

  function AllocationTotal(a: Allocation): real {
    a.needs + a.wants + a.savings
  }

  // ---------------------------------------------------------------------------
  // Grades (lines 80-118)

  datatype SpendingStatus = Excellent | Good | Warning | Danger

  function StatusRank(s: SpendingStatus): nat {
    match s
    case Excellent => 0
    case Good => 1
    case Warning => 2
    case Danger => 3
  }

  /** `getSpendingStatus`: the first of the thresholds 50, 70, 90 the percentage
      does not exceed, or danger beyond them. */
  function SpendingStatusOf(p: real): (s: SpendingStatus)
    ensures s == Excellent <==> p <= 50.0
    ensures s == Danger <==> p > 90.0
    ensures s == Good ==> 50.0 < p <= 70.0
    ensures s == Warning ==> 70.0 < p <= 90.0
  {
    if p <= 50.0 then Excellent
    else if p <= 70.0 then Good
    else if p <= 90.0 then Warning
    else Danger
  }

  /** Spending more never earns a better grade. */
  lemma StatusMonotone(p: real, q: real)
    requires p <= q
    ensures StatusRank(SpendingStatusOf(p)) <= StatusRank(SpendingStatusOf(q))
  {
  }

  /** `getAnalyticsMessage`, with the numbers it formats into the text. */
  datatype Insight =
    | SetSalaryPrompt
    | OnlySpending(percent: real, left: real)
    | GoodJob(percent: real, left: real)
    | BeCareful(percent: real, left: real)
    | StillRemaining(percent: real, left: real)
    | Overspending(excess: real)

  /** Grade of an insight, on the same scale as the spending status. */
  function InsightRank(m: Insight): nat {
    match m
    case SetSalaryPrompt => 0
    case OnlySpending(_, _) => 0
    case GoodJob(_, _) => 1
    case BeCareful(_, _) => 2
    case StillRemaining(_, _) => 3
    case Overspending(_) => 3
  }

  /** A salary of exactly 0 asks for one; otherwise the message follows the
      spending status, and its last grade splits on whether anything remains. */
  function AnalyticsMessage(salary: real, spent: real): (m: Insight)
    ensures m == SetSalaryPrompt <==> salary == 0.0
    ensures salary != 0.0 ==> InsightRank(m) == StatusRank(SpendingStatusOf(SpendingPercentage(salary, spent)))
    ensures m.Overspending? ==> spent > salary && m.excess == spent - salary
    ensures salary > 0.0 && spent > salary ==> m == Overspending(spent - salary)
    ensures !m.SetSalaryPrompt? && !m.Overspending? ==>
      m.percent == SpendingPercentage(salary, spent) && m.left == ActualSavings(salary - spent)
  {
    var p := SpendingPercentage(salary, spent);
    var saved := ActualSavings(salary - spent);
    if salary == 0.0 then SetSalaryPrompt
    else if p <= 50.0 then OnlySpending(p, saved)
    else if p <= 70.0 then GoodJob(p, saved)
    else if p <= 90.0 then BeCareful(p, saved)
    else if salary - spent >= 0.0 then StillRemaining(p, saved)
    else Overspending(spent - salary)
  }

  /** A negative salary reads as 0% spent, so it is graded excellent whatever was
      spent. */
  lemma NegativeSalaryReadsExcellent(salary: real, spent: real)
    requires salary < 0.0
    ensures AnalyticsMessage(salary, spent) == OnlySpending(0.0, ActualSavings(salary - spent))
  {
  }

  datatype Suggestion = Portfolio | IndexFunds | EmergencyFund | KeepSaving | ReduceExpenses

  function SuggestionRank(s: Suggestion): nat {
    match s
    case ReduceExpenses => 0
    case KeepSaving => 1
    case EmergencyFund => 2
    case IndexFunds => 3
    case Portfolio => 4
  }

  /** `getInvestmentSuggestion`: thresholds 20000, 10000 and 5000 on the amount
      saved, then anything above 0. */
  function InvestmentSuggestion(saved: real): (s: Suggestion)
    ensures s == ReduceExpenses <==> saved <= 0.0
    ensures s == Portfolio <==> saved >= 20000.0
    ensures s == IndexFunds ==> 10000.0 <= saved < 20000.0
    ensures s == EmergencyFund ==> 5000.0 <= saved < 10000.0
    ensures s == KeepSaving ==> 0.0 < saved < 5000.0
  {
    if saved >= 20000.0 then Portfolio
    else if saved >= 10000.0 then IndexFunds
    else if saved >= 5000.0 then EmergencyFund
    else if saved > 0.0 then KeepSaving
    else ReduceExpenses
  }

  /** Saving more never earns a lesser suggestion, and one that spends at least
      the salary is told to reduce expenses. */
  lemma SuggestionMonotone(a: real, b: real, salary: real, spent: real)
    requires a <= b
    ensures SuggestionRank(InvestmentSuggestion(a)) <= SuggestionRank(InvestmentSuggestion(b))
    ensures spent >= salary ==> InvestmentSuggestion(ActualSavings(salary - spent)) == ReduceExpenses
  {
  }

  // ---------------------------------------------------------------------------
  // The component's state (lines 11-32, 47-78)

  /** `salaryAllocation?.x ?? default` for each share: the stored allocation, or
      50/30/20 when there is none. */
  function StoredOrDefault(stored: Option<Allocation>): (a: Allocation)
    ensures stored.Some? ==> a == stored.value
    ensures stored.None? ==> a == DefaultAllocation && AllocationTotal(a) == 100.0
  {
    if stored.Some? then stored.value else DefaultAllocation
  }

  /** `parseFloat(tempSalary) || 0`: text that does not parse (NaN) and 0 both give 0. */
  function ParsedOrZero(parsed: Option<real>): (r: real)
    ensures parsed.Some? ==> r == parsed.value
    ensures parsed.None? ==> r == 0.0
  {
    if parsed.Some? then parsed.value else 0.0
  }

  datatype Share = Needs | Wants | SavingsShare

  function WithShare(a: Allocation, field: Share, value: real): (r: Allocation)
    ensures field == Needs ==> r == a.(needs := value)
    ensures field == Wants ==> r == a.(wants := value)
    ensures field == SavingsShare ==> r == a.(savings := value)
  {
    match field
    case Needs => a.(needs := value)
    case Wants => a.(wants := value)
    case SavingsShare => a.(savings := value)
  }

  class SalaryEditor {
    var isEditing: bool
    var tempSalary: string
    var alloc: Allocation
    var isEditingAlloc: bool

    /** The first render: the salary as text, the stored allocation or the default,
        and neither editor open. `show` stands for `toString`. */
    constructor (monthlySalary: real, stored: Option<Allocation>, show: real -> string)
      ensures !isEditing && !isEditingAlloc
      ensures tempSalary == show(monthlySalary) && alloc == StoredOrDefault(stored)
    {
      isEditing, isEditingAlloc := false, false;
      tempSalary := show(monthlySalary);
      alloc := StoredOrDefault(stored);
    }

    /** The effect on `monthlySalary`: the text follows the stored salary. */
    method SalaryChanged(monthlySalary: real, show: real -> string)
      modifies this
      ensures tempSalary == show(monthlySalary)
      ensures isEditing == old(isEditing) && alloc == old(alloc) && isEditingAlloc == old(isEditingAlloc)
    {
      tempSalary := show(monthlySalary);
    }

    /** The effect on `salaryAllocation`: the draft follows the stored allocation,
        even while it is being edited. */
    method AllocationChanged(stored: Option<Allocation>)
      modifies this
      ensures alloc == StoredOrDefault(stored)
      ensures isEditing == old(isEditing) && tempSalary == old(tempSalary) && isEditingAlloc == old(isEditingAlloc)
    {
      alloc := StoredOrDefault(stored);
    }

    method StartEditing()
      modifies this
      ensures isEditing
      ensures tempSalary == old(tempSalary) && alloc == old(alloc) && isEditingAlloc == old(isEditingAlloc)
    {
      isEditing := true;
    }

    method EditSalaryText(text: string)
      modifies this
      ensures tempSalary == text
      ensures isEditing == old(isEditing) && alloc == old(alloc) && isEditingAlloc == old(isEditingAlloc)
    {
      tempSalary := text;
    }

    /** `handleSave`: dispatches the parsed salary (0 when it does not parse) and
        closes the editor; the text stays as typed. `parse` stands for `parseFloat`. */
    method Save(parse: string -> Option<real>) returns (dispatched: real)
      modifies this
      ensures dispatched == ParsedOrZero(parse(old(tempSalary)))
      ensures !isEditing
      ensures tempSalary == old(tempSalary) && alloc == old(alloc) && isEditingAlloc == old(isEditingAlloc)
    {
      dispatched := ParsedOrZero(parse(tempSalary));
      isEditing := false;
    }

    /** `handleCancel`: the text goes back to the salary shown and the editor closes. */
    method Cancel(salary: real, show: real -> string)
      modifies this
      ensures !isEditing && tempSalary == show(salary)
      ensures alloc == old(alloc) && isEditingAlloc == old(isEditingAlloc)
    {
      tempSalary := show(salary);
      isEditing := false;
    }

    method StartEditingAlloc()
      modifies this
      ensures isEditingAlloc
      ensures isEditing == old(isEditing) && tempSalary == old(tempSalary) && alloc == old(alloc)
    {
      isEditingAlloc := true;
    }

    /** `handleAllocChange`: one share of the draft takes the new value. */
    method ChangeAlloc(field: Share, value: real)
      modifies this
      ensures alloc == WithShare(old(alloc), field, value)
      ensures isEditing == old(isEditing) && tempSalary == old(tempSalary) && isEditingAlloc == old(isEditingAlloc)
    {
      alloc := WithShare(alloc, field, value);
    }

    /** `handleSaveAlloc`: a draft that adds up to exactly 100 is dispatched and the
        editor closes; any other draft is refused and stays open for correction. */
    method SaveAlloc() returns (dispatched: Option<Allocation>)
      modifies this
      ensures AllocationTotal(old(alloc)) == 100.0 ==> dispatched == Some(old(alloc)) && !isEditingAlloc
      ensures AllocationTotal(old(alloc)) != 100.0 ==> dispatched.None? && isEditingAlloc == old(isEditingAlloc)
      ensures dispatched.Some? ==> AllocationTotal(dispatched.value) == 100.0
      ensures alloc == old(alloc) && isEditing == old(isEditing) && tempSalary == old(tempSalary)
    {
      if AllocationTotal(alloc) == 100.0 {
        dispatched := Some(alloc);
        isEditingAlloc := false;
      } else {
        dispatched := None;
      }
    }

    /** `handleCancelAlloc`: the draft goes back to the stored allocation, or to
        50/30/20, and the editor closes. */
    method CancelAlloc(stored: Option<Allocation>)
      modifies this
      ensures alloc == StoredOrDefault(stored) && !isEditingAlloc
      ensures isEditing == old(isEditing) && tempSalary == old(tempSalary)
    {
      alloc := StoredOrDefault(stored);
      isEditingAlloc := false;
    }
  }

  /** What the panel shows for the signed-in user's salary and the expense list. */
  datatype Panel = Panel(
    salary: real, spent: real, remaining: real, spendingPercentage: real,
    suggested: Suggestions, actualSavings: real, savingsPercentage: real,
    status: SpendingStatus, message: Insight, suggestion: Suggestion)

  /** Lines 34-45, 87 and the two message functions, for the slice's salary, the
      expense list and the draft allocation. */
  function PanelFor(monthlySalary: real, expenses: seq<Expense>, alloc: Allocation): (r: Panel)
    ensures r.salary == monthlySalary && r.spent == Sum(expenses, AmountOf)
    ensures r.remaining == r.salary - r.spent
    ensures r.actualSavings >= 0.0 && r.actualSavings >= r.remaining
    ensures r.status == Danger <==> r.spendingPercentage > 90.0
    ensures r.salary > 0.0 && r.remaining < 0.0 ==> r.message == Overspending(-r.remaining) && r.suggestion == ReduceExpenses
    ensures AllocationTotal(alloc) == 100.0 ==> r.suggested.savings + r.suggested.home + r.suggested.other == r.salary
  {
    var spent := Sum(expenses, AmountOf);
    var p := SpendingPercentage(monthlySalary, spent);
    var saved := ActualSavings(monthlySalary - spent);
    Panel(monthlySalary, spent, monthlySalary - spent, p, Suggested(monthlySalary, alloc), saved,
          SavingsPercentage(monthlySalary, saved), SpendingStatusOf(p),
          AnalyticsMessage(monthlySalary, spent), InvestmentSuggestion(saved))
  }
}

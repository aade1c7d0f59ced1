/** client/src/redux/expenseSlice.ts: the browser's expense list and the demo monthly
    salary, their reducers, and what each thunk does once it settles. */
module ExpenseSlice {
  import opened Common
  import opened Folds
  import opened UiTypes
  import opened SliceOps

  /** `initialState.monthlySalary`, a demo value. */
  const DemoSalary: real := 5000.0

  class ExpenseState {
    var expenses: seq<Expense>
    var monthlySalary: real

    ghost predicate Valid()
      reads this
    {
      AllStringIds(expenses)
    }

    /** `initialState`: no expenses and the demo salary. */
    constructor ()
      ensures Valid() && expenses == [] && monthlySalary == DemoSalary
    {
      expenses, monthlySalary := [], DemoSalary;
    }

    method AddExpense(x: Expense)
      requires Valid() && x.id.Str?
      modifies this
      ensures Valid()
      ensures expenses == old(expenses) + [x] && monthlySalary == old(monthlySalary)
    {
      StringIdsKept(expenses, x, "");
      expenses := expenses + [x];
    }

    method UpdateExpense(x: Expense)
      requires Valid() && x.id.Str?
      modifies this
      ensures Valid()
      ensures expenses == ReplaceFirst(old(expenses), x) && monthlySalary == old(monthlySalary)
    {
      StringIdsKept(expenses, x, "");
      expenses := ReplaceFirst(expenses, x);
    }

    method DeleteExpense(id: string)
      requires Valid()
      modifies this
      ensures Valid()
      ensures expenses == RemoveWhere(old(expenses), IdOf, Str(id)) && monthlySalary == old(monthlySalary)
    {
      StringIdsKept(expenses, Rec(Str(id), Undefined, ExpenseFields("", 0.0, "", 0, 0)), id);
      expenses := RemoveWhere(expenses, IdOf, Str(id));
    }

    method UpdateMonthlySalary(salary: real)
      modifies this
      ensures monthlySalary == salary && expenses == old(expenses)
    {
      monthlySalary := salary;
    }

    method FetchExpensesSettled(p: Payload<Expense>, drawn: nat -> string)
      requires Valid()
      modifies this
      ensures Valid() && monthlySalary == old(monthlySalary)
      ensures Fetched(p, drawn).Fulfilled? ==> expenses == Fetched(p, drawn).value
      ensures Fetched(p, drawn).Rejected? ==> expenses == old(expenses)
    {
      var o := Fetched(p, drawn);
      if o.Fulfilled? {
        expenses := o.value;
      }
    }

    /** `createExpense.fulfilled`: appends the normalised expense when there is one. */
    method CreateExpenseSettled(reply: Reply<Expense>, drawn: string)
      requires Valid()
      modifies this
      ensures Valid() && monthlySalary == old(monthlySalary)
      ensures var o := UnCheckedOutcome(reply);
      if o.Fulfilled? && o.value.Some? then expenses == old(expenses) + [Normalized(o.value.value, drawn)]
      else expenses == old(expenses)
    {
      var o := UnCheckedOutcome(reply);
      if o.Fulfilled? && o.value.Some? {
        var x := Normalized(o.value.value, drawn);
        StringIdsKept(expenses, x, "");
        expenses := expenses + [x];
      }
    }

    /** `updateExpenseAsync.fulfilled`: the payload, not normalised, replaces the
        expense with the same `id`; a payload without `id` changes nothing. */
    method UpdateExpenseSettled(reply: Reply<Expense>)
      requires Valid()
      modifies this
      ensures Valid() && monthlySalary == old(monthlySalary)
      ensures var o := UnCheckedOutcome(reply);
      if o.Fulfilled? && o.value.Some? && o.value.value.id.Str? then expenses == ReplaceFirst(old(expenses), o.value.value)
      else expenses == old(expenses)
    {
      var o := UnCheckedOutcome(reply);
      if o.Fulfilled? && o.value.Some? {
        var x := o.value.value;
        if x.id.Str? {
          StringIdsKept(expenses, x, "");
        } else {
          ReplaceWithoutIdIsNoOp(expenses, x);
        }
        expenses := ReplaceFirst(expenses, x);
      }
    }

    method DeleteExpenseSettled(reply: Reply<Expense>, id: string)
      requires Valid()
      modifies this
      ensures Valid() && monthlySalary == old(monthlySalary)
      ensures DeleteOutcome(reply, id).Fulfilled? ==> expenses == RemoveWhere(old(expenses), IdOf, Str(id))
      ensures DeleteOutcome(reply, id).Rejected? ==> expenses == old(expenses)
    {
      if DeleteOutcome(reply, id).Fulfilled? {
        DeleteExpense(id);
      }
    }
  }
}

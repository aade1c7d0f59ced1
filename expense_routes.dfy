/** server/routes/expense.js: the two express-validator chains over the expense
    body, the sanitizers they apply, and the route order. */
module ExpenseRoutes {
  import opened Common
  import opened ExpenseModel

  /** `.trim().isLength({ min, max })` on a text field that must be present. */
  predicate TrimmedBetween(f: Field<string>, min: nat, max: nat) {
    f.Given? && min <= |Trim(f.value)| <= max
  }

  predicate OneOf(f: Field<string>, allowed: seq<string>) {
    f.Given? && f.value in allowed
  }

  /** `expenseValidation`. */
  predicate CreateValid(b: ExpenseBody) {
    && TrimmedBetween(b.description, 1, 200)
    && b.amount.Given? && b.amount.value >= 0.0
    && OneOf(b.category, Categories)
    && !b.date.Malformed?
    && (b.paymentMethod.Missing? || OneOf(b.paymentMethod, PaymentMethods))
    && (b.notes.Missing? || TrimmedBetween(b.notes, 0, 500))
  }

  /** `updateExpenseValidation`: every field optional, the same rules when present. */
  predicate UpdateValid(b: ExpenseBody) {
    && (b.description.Missing? || TrimmedBetween(b.description, 1, 200))
    && (b.amount.Missing? || (b.amount.Given? && b.amount.value >= 0.0))
    && (b.category.Missing? || OneOf(b.category, Categories))
    && !b.date.Malformed?
    && (b.paymentMethod.Missing? || OneOf(b.paymentMethod, PaymentMethods))
    && (b.notes.Missing? || TrimmedBetween(b.notes, 0, 500))
  }

  function TrimGiven(f: Field<string>): (r: Field<string>)
    ensures r.Given? <==> f.Given?
    ensures r.Missing? <==> f.Missing?
    ensures r.Given? ==> r.value == Trim(f.value)
  {
    if f.Given? then Given(Trim(f.value)) else f
  }

  /** The body the controller sees: the chains trim description and notes. */
  function Sanitized(b: ExpenseBody): (r: ExpenseBody)
    ensures r.description == TrimGiven(b.description) && r.notes == TrimGiven(b.notes)
    ensures r.amount == b.amount && r.category == b.category && r.date == b.date
    ensures r.paymentMethod == b.paymentMethod && r.receipt == b.receipt
  {
    b.(description := TrimGiven(b.description), notes := TrimGiven(b.notes))
  }

  /** What a sanitized body that passed the create chain guarantees the controller. */
  predicate CreateClean(b: ExpenseBody) {
    && b.description.Given? && !IsBlank(b.description.value) && |b.description.value| <= 200
    && b.amount.Given? && b.amount.value >= 0.0
    && OneOf(b.category, Categories)
    && !b.date.Malformed?
    && (b.paymentMethod.Missing? || OneOf(b.paymentMethod, PaymentMethods))
    && (b.notes.Missing? || (b.notes.Given? && |b.notes.value| <= 500))
  }

  predicate UpdateClean(b: ExpenseBody) {
    && (b.description.Missing? || (b.description.Given? && !IsBlank(b.description.value) && |b.description.value| <= 200))
    && (b.amount.Missing? || (b.amount.Given? && b.amount.value >= 0.0))
    && (b.category.Missing? || OneOf(b.category, Categories))
    && !b.date.Malformed?
    && (b.paymentMethod.Missing? || OneOf(b.paymentMethod, PaymentMethods))
    && (b.notes.Missing? || (b.notes.Given? && |b.notes.value| <= 500))
  }

  /** A body that passes a chain reaches the controller with a non-blank description
      and every length within its bound. */
  lemma SanitizedCreateIsClean(b: ExpenseBody)
    requires CreateValid(b)
    ensures CreateClean(Sanitized(b))
  {
    TrimmedNotBlank(b.description.value);
  }

  lemma SanitizedUpdateIsClean(b: ExpenseBody)
    requires UpdateValid(b)
    ensures UpdateClean(Sanitized(b))
  {
    if b.description.Given? { TrimmedNotBlank(b.description.value); }
  }

  // ---------------------------------------------------------------------------
  // Route table

  datatype Handler = GetExpenses | GetExpenseStats | GetExpenseCategories | GetExpense
                   | CreateExpense | UpdateExpense | DeleteExpense

  const Routes: seq<Route<Handler>> := [
    Route(GET, [], GetExpenses),
    Route(GET, [Lit("stats")], GetExpenseStats),
    Route(GET, [Lit("categories")], GetExpenseCategories),
    Route(GET, [Param], GetExpense),
    Route(POST, [], CreateExpense),
    Route(PUT, [Param], UpdateExpense),
    Route(DELETE, [Param], DeleteExpense)]

  /** `/stats` and `/categories` are registered before `/:id`, so neither word is
      ever taken for an expense id; every other single segment is. */
  lemma FixedPathsBeforeId(id: string)
    ensures HandlerFor(Routes, GET, ["stats"]) == Some(GetExpenseStats)
    ensures HandlerFor(Routes, GET, ["categories"]) == Some(GetExpenseCategories)
    ensures id != "stats" && id != "categories" ==> HandlerFor(Routes, GET, [id]) == Some(GetExpense)
  {
    assert !RouteMatches(Routes[0], GET, ["stats"]);
    DispatchFirst(Routes, GET, ["stats"], 1);
    assert !RouteMatches(Routes[0], GET, ["categories"]);
    assert !SegmentsMatch(Routes[1].pattern, ["categories"]) by {
      assert Routes[1].pattern[0] == Lit("stats") && ["categories"][0] == "categories";
    }
    DispatchFirst(Routes, GET, ["categories"], 2);
    if id != "stats" && id != "categories" {
      IdRoute(id);
    }
  }

  /** Any single segment other than the two words reaches `getExpense`. */
  lemma IdRoute(id: string)
    requires id != "stats" && id != "categories"
    ensures HandlerFor(Routes, GET, [id]) == Some(GetExpense)
  {
    assert !RouteMatches(Routes[0], GET, [id]);
    assert !SegmentsMatch(Routes[1].pattern, [id]) by {
      assert Routes[1].pattern[0] == Lit("stats") && [id][0] == id;
    }
    assert !SegmentsMatch(Routes[2].pattern, [id]) by {
      assert Routes[2].pattern[0] == Lit("categories") && [id][0] == id;
    }
    assert RouteMatches(Routes[3], GET, [id]);
    DispatchFirst(Routes, GET, [id], 3);
  }
}

/** server/controllers/expenseController.js: the seven expense handlers over the
    database, and the route pipelines of server/routes/expense.js. */
module ExpenseController {
  import opened Common
  import opened Folds
  import opened ExpenseModel
  import opened ExpenseRoutes
  import ClientModel
  import Store

  // ---------------------------------------------------------------------------
  // createExpense, updateExpense

  function GivenOr<T>(f: Field<T>, otherwise: Option<T>): (r: Option<T>)
    ensures f.Given? ==> r == Some(f.value)
    ensures !f.Given? ==> r == otherwise
  {
    if f.Given? then Some(f.value) else otherwise
  }

  /** The expense createExpense stores: owned by the requester, dated `now` when no
      date is sent, with the whole sanitized body kept as its snapshot. It always
      satisfies the schema, so creation always answers 201. */
  function NewExpense(requester: Id, b: ExpenseBody, newId: Id, now: int): (e: Expense)
    requires CreateClean(b)
    ensures e.id == newId && e.user == requester && e.createdAt == now
    ensures e.description == Trim(b.description.value) && e.amount == b.amount.value
    ensures e.category == b.category.value
    ensures e.date == (if b.date.Given? then b.date.value else now)
    ensures e.paymentMethod == GivenOr(b.paymentMethod, None)
    ensures e.notes == (if b.notes.Given? then Some(Trim(b.notes.value)) else None)
    ensures e.receipt == ClientModel.TrimOpt(b.receipt)
    ensures e.detailsSnapshot == Some(b)
    ensures SchemaOk(e)
  {
    Expense(newId, requester, Trim(b.description.value), b.amount.value, b.category.value,
            if b.date.Given? then b.date.value else now,
            GivenOr(b.paymentMethod, None), ClientModel.TrimOpt(b.receipt),
            if b.notes.Given? then Some(Trim(b.notes.value)) else None,
            Some(b), now)
  }

  /** POST /api/expenses. */
  method CreateExpense(db: Store.Database, requester: Id, b: ExpenseBody, newId: Id, now: int)
    returns (code: nat, created: Expense)
    requires db.Valid() && CreateClean(b) && db.FreshExpenseId(newId)
    modifies db
    ensures db.Valid()
    ensures db.users == old(db.users) && db.clients == old(db.clients) && db.invoices == old(db.invoices)
    ensures code == CREATED && created == NewExpense(requester, b, newId, now)
    ensures db.expenses == old(db.expenses) + [created]
  {
    created := NewExpense(requester, b, newId, now);
    Store.ExpenseAppendValid(db.expenses, created);
    db.SetExpenses(db.expenses + [created]);
    code := CREATED;
  }

  /** `findByIdAndUpdate` with the sent fields, through the `trim` setters; absent
      fields are kept. Owner, id and snapshot never change. */
  function UpdatedExpense(e: Expense, b: ExpenseBody): (r: Expense)
    requires UpdateClean(b)
    ensures r.id == e.id && r.user == e.user && r.detailsSnapshot == e.detailsSnapshot && r.createdAt == e.createdAt
    ensures r.description == (if b.description.Given? then Trim(b.description.value) else e.description)
    ensures r.amount == (if b.amount.Given? then b.amount.value else e.amount)
    ensures r.category == (if b.category.Given? then b.category.value else e.category)
    ensures r.date == (if b.date.Given? then b.date.value else e.date)
    ensures r.paymentMethod == GivenOr(b.paymentMethod, e.paymentMethod)
    ensures r.receipt == (if b.receipt.Some? then ClientModel.TrimOpt(b.receipt) else e.receipt)
    ensures r.notes == (if b.notes.Given? then Some(Trim(b.notes.value)) else e.notes)
  {
    e.(description := if b.description.Given? then Trim(b.description.value) else e.description,
       amount := if b.amount.Given? then b.amount.value else e.amount,
       category := if b.category.Given? then b.category.value else e.category,
       date := if b.date.Given? then b.date.value else e.date,
       paymentMethod := GivenOr(b.paymentMethod, e.paymentMethod),
       receipt := if b.receipt.Some? then ClientModel.TrimOpt(b.receipt) else e.receipt,
       notes := if b.notes.Given? then Some(Trim(b.notes.value)) else e.notes)
  }

  /** With a sanitized body, an expense within the schema stays within it, so the
      update's `runValidators` never rejects it. */
  lemma UpdatedExpenseValid(e: Expense, b: ExpenseBody)
    requires UpdateClean(b) && SchemaOk(e)
    ensures SchemaOk(UpdatedExpense(e, b))
  {
    var r := UpdatedExpense(e, b);
    if b.description.Given? {
      assert |Trim(b.description.value)| <= |b.description.value|;
    }
    assert r.description != [] && |r.description| <= 200;
    assert r.category in Categories;
    assert r.paymentMethod.Some? ==> r.paymentMethod.value in PaymentMethods;
    assert r.notes.Some? ==> |r.notes.value| <= 500;
  }

  /** PUT /api/expenses/:id. The guard (404, then 401), then the update. */
  method UpdateExpense(db: Store.Database, requester: Id, id: Id, b: ExpenseBody)
    returns (code: nat, updated: Option<Expense>)
    requires db.Valid() && UpdateClean(b)
    modifies db
    ensures db.Valid()
    ensures db.users == old(db.users) && db.clients == old(db.clients) && db.invoices == old(db.invoices)
    ensures code == GuardCode(old(db.ExpenseOwner(id)), requester)
    ensures code != OK ==> updated.None? && db.expenses == old(db.expenses)
    ensures code == OK ==>
      var k := old(db.FindExpense(id)).value;
      var u := UpdatedExpense(old(db.expenses)[k], b);
      updated == Some(u) && db.expenses == old(db.expenses)[k := u]
  {
    code := GuardCode(db.ExpenseOwner(id), requester);
    if code != OK {
      return code, None;
    }
    var k := db.FindExpense(id).value;
    var u := UpdatedExpense(db.expenses[k], b);
    UpdatedExpenseValid(db.expenses[k], b);
    Store.ExpenseReplaceValid(db.expenses, k, u);
    db.SetExpenses(db.expenses[k := u]);
    updated := Some(u);
  }

  /** DELETE /api/expenses/:id. */
  method DeleteExpense(db: Store.Database, requester: Id, id: Id) returns (code: nat)
    requires db.Valid()
    modifies db
    ensures db.Valid()
    ensures db.users == old(db.users) && db.clients == old(db.clients) && db.invoices == old(db.invoices)
    ensures code == GuardCode(old(db.ExpenseOwner(id)), requester)
    ensures code != OK ==> db.expenses == old(db.expenses)
    ensures code == OK ==> db.expenses == RemoveWhere(old(db.expenses), IdOf, id)
  {
    code := GuardCode(db.ExpenseOwner(id), requester);
    if code == OK {
      Store.ExpenseRemoveValid(db.expenses, id);
      db.SetExpenses(RemoveWhere(db.expenses, IdOf, id));
    }
  }

  // ---------------------------------------------------------------------------
  // getExpense, getExpenses

  /** GET /api/expenses/:id. */
  method GetExpense(db: Store.Database, requester: Id, id: Id) returns (code: nat, found: Option<Expense>)
    ensures code == GuardCode(db.ExpenseOwner(id), requester)
    ensures code == OK <==> found.Some?
    ensures found.Some? ==> found.value in db.expenses && found.value.id == id && found.value.user == requester
  {
    code := GuardCode(db.ExpenseOwner(id), requester);
    if code == OK {
      found := Some(db.expenses[db.FindExpense(id).value]);
    } else {
      found := None;
    }
  }

  /** The date bounds shared by getExpenses and getExpenseStats: on or after
      `startDate`, on or before `endDate`, each only when given. */
  predicate InRange(e: Expense, startDate: Option<int>, endDate: Option<int>) {
    (startDate.None? || e.date >= startDate.value) && (endDate.None? || e.date <= endDate.value)
  }

  /** The filter of getExpenses: the requester's expenses, of the given category
      unless it is empty or "all", within the dates, and whose description matches
      the search text when one is given. */
  function ExpenseQuery(requester: Id, category: string, startDate: Option<int>, endDate: Option<int>,
                        search: string, matches: (string, string) -> bool): Expense -> bool
  {
    (e: Expense) =>
      && e.user == requester
      && (category == [] || category == "all" || e.category == category)
      && InRange(e, startDate, endDate)
      && (search == [] || matches(e.description, search))
  }

  /** The body of a listing; `totalPages` is None where the JSON carries `null`. */
  datatype ExpensePage = ExpensePage(expenses: seq<Expense>, totalPages: Option<int>, currentPage: int, total: nat)

  /** getExpenses for any integer page and limit: None when the skip is negative
      (a 500); otherwise the matching expenses latest date first, the requested
      page of them when page and limit are at least 1 and all of them for limit 0. */
  function ListExpenses(expenses: seq<Expense>, requester: Id, page: int, limit: int, category: string,
                        startDate: Option<int>, endDate: Option<int>, search: string,
                        matches: (string, string) -> bool): (r: Option<ExpensePage>)
    ensures r.None? <==> SkipOf(page, limit) < 0
    ensures var q := ExpenseQuery(requester, category, startDate, endDate, search, matches);
      r.Some? ==>
      && r.value.total == |Filter(expenses, q)|
      && (limit != 0 ==> |r.value.expenses| <= Bound(limit))
      && (forall i :: 0 <= i < |r.value.expenses| ==> q(r.value.expenses[i]) && r.value.expenses[i] in expenses)
      && SortedDesc(r.value.expenses, DateOf)
      && r.value.totalPages == PageCount(r.value.total, limit)
      && r.value.currentPage == page
    ensures var q := ExpenseQuery(requester, category, startDate, endDate, search, matches);
      page >= 1 && limit >= 1 ==>
      && r.Some? && r.value.expenses == SortedPage(expenses, q, DateOf, page, limit)
      && r.value.totalPages.Some? && PagesHold(r.value.totalPages.value, r.value.total, limit)
    ensures var q := ExpenseQuery(requester, category, startDate, endDate, search, matches);
      limit == 0 ==> r.Some? && r.value.expenses == SortDesc(Filter(expenses, q), DateOf)
  {
    var q := ExpenseQuery(requester, category, startDate, endDate, search, matches);
    var total := |Filter(expenses, q)|;
    match SortedWindow(expenses, q, DateOf, page, limit)
    case None => None
    case Some(w) => Some(ExpensePage(w, PageCount(total, limit), page, total))
  }

  /** Every matching expense is on one of the pages 1 to totalPages. */
  lemma EveryMatchIsListed(expenses: seq<Expense>, requester: Id, limit: int, category: string,
                           startDate: Option<int>, endDate: Option<int>, search: string,
                           matches: (string, string) -> bool, e: Expense)
    requires limit >= 1
    requires e in expenses && ExpenseQuery(requester, category, startDate, endDate, search, matches)(e)
    ensures var first := ListExpenses(expenses, requester, 1, limit, category, startDate, endDate, search, matches);
      && first.Some? && first.value.totalPages.Some?
      && exists page: int ::
        && 1 <= page <= first.value.totalPages.value
        && ListExpenses(expenses, requester, page, limit, category, startDate, endDate, search, matches).Some?
        && e in ListExpenses(expenses, requester, page, limit, category, startDate, endDate, search, matches).value.expenses
  {
    var q := ExpenseQuery(requester, category, startDate, endDate, search, matches);
    SortedPageCovers(expenses, q, DateOf, limit, e);
    var page: nat :| 1 <= page <= TotalPages(|Filter(expenses, q)|, limit) && e in SortedPage(expenses, q, DateOf, page, limit);
    assert ListExpenses(expenses, requester, page, limit, category, startDate, endDate, search, matches).value.expenses
        == SortedPage(expenses, q, DateOf, page, limit);
  }

  /** GET /api/expenses: 200 with the listing, or 500 when the query fails. */
  method GetExpenses(db: Store.Database, requester: Id, page: int, limit: int, category: string,
                     startDate: Option<int>, endDate: Option<int>, search: string,
                     matches: (string, string) -> bool) returns (code: int, r: Option<ExpensePage>)
    ensures r == ListExpenses(db.expenses, requester, page, limit, category, startDate, endDate, search, matches)
    ensures code == (if r.Some? then OK else SERVER_ERROR)
  {
    r := ListExpenses(db.expenses, requester, page, limit, category, startDate, endDate, search, matches);
    code := if r.Some? then OK else SERVER_ERROR;
  }

  // ---------------------------------------------------------------------------
  // getExpenseStats, getExpenseCategories

  datatype ExpenseStats = ExpenseStats(categoryStats: seq<Group<string>>, totalExpenses: real,
                                       monthlyStats: seq<Group<int>>)

  function StatsMatch(requester: Id, startDate: Option<int>, endDate: Option<int>): Expense -> bool {
    (e: Expense) => e.user == requester && InRange(e, startDate, endDate)
  }

  function SinceMatch(requester: Id, since: int): Expense -> bool {
    (e: Expense) => e.user == requester && e.date >= since
  }

  /** Sorting months ascending is sorting their negation descending. */
  function EarlierFirst(g: Group<int>): real { -(g.key as real) }

  /** The category rows: one per category among the matched expenses, each with
      that category's count and summed amount, largest total first; together they
      add up to the matched count and amount. */
  function CategoryRows(matched: seq<Expense>): (g: seq<Group<string>>)
    ensures GroupsOf(g, matched, CategoryOf, AmountOf)
    ensures CountSum(g) == |matched| && Sum(g, GroupTotal) == Sum(matched, AmountOf)
    ensures matched == [] ==> g == []
    ensures SortedDesc(g, GroupTotal)
  {
    var groups := GroupAll(matched, CategoryOf, AmountOf);
    var byTotal := SortDesc(groups, GroupTotal);
    SortDescSum(groups, GroupTotal, GroupTotal);
    SortDescCount(groups, GroupTotal);
    GroupAllGroups(matched, CategoryOf, AmountOf);
    PermutedGroups(groups, byTotal, matched, CategoryOf, AmountOf);
    assert matched == [] ==> groups == [];
    byTotal
  }

  /** The `{ $year, $month }` key of an expense's date. */
  function MonthKey(monthOf: int -> int): Expense -> int {
    (e: Expense) => monthOf(e.date)
  }

  /** The monthly rows: one per month among the recent expenses, each with that
      month's count and summed amount, earliest month first; together they add up
      to the recent count and amount. */
  function MonthRows(recent: seq<Expense>, monthOf: int -> int): (g: seq<Group<int>>)
    ensures GroupsOf(g, recent, MonthKey(monthOf), AmountOf)
    ensures CountSum(g) == |recent| && Sum(g, GroupTotal) == Sum(recent, AmountOf)
    ensures forall i, j :: 0 <= i < j < |g| ==> g[i].key < g[j].key
  {
    var months := GroupAll(recent, MonthKey(monthOf), AmountOf);
    var byMonth := SortDesc(months, EarlierFirst);
    SortDescSum(months, EarlierFirst, GroupTotal);
    SortDescCount(months, EarlierFirst);
    GroupAllGroups(recent, MonthKey(monthOf), AmountOf);
    PermutedGroups(months, byMonth, recent, MonthKey(monthOf), AmountOf);
    StrictlyAscending(byMonth);
    byMonth
  }

  /** Rows sorted earliest first whose months are distinct have increasing months. */
  lemma StrictlyAscending(g: seq<Group<int>>)
    requires SortedDesc(g, EarlierFirst) && NoDup(KeysOf(g, GroupKey))
    ensures forall i, j :: 0 <= i < j < |g| ==> g[i].key < g[j].key
  {
    forall i, j | 0 <= i < j < |g| ensures g[i].key < g[j].key {
      assert EarlierFirst(g[i]) >= EarlierFirst(g[j]);
      assert KeysOf(g, GroupKey)[i] != KeysOf(g, GroupKey)[j];
    }
  }

  /** Category rows for the requester's expenses in the date range, with
      `totalExpenses` (0 when nothing matched), and monthly rows for the
      requester's expenses since `sixMonthsAgo`. `monthOf` stands for the
      `{ $year, $month }` key of a date. */
  function StatsOf(expenses: seq<Expense>, requester: Id, startDate: Option<int>, endDate: Option<int>,
                   sixMonthsAgo: int, monthOf: int -> int): (r: ExpenseStats)
    ensures var matched := Filter(expenses, StatsMatch(requester, startDate, endDate));
      && GroupsOf(r.categoryStats, matched, CategoryOf, AmountOf)
      && CountSum(r.categoryStats) == |matched|
      && Sum(r.categoryStats, GroupTotal) == r.totalExpenses
      && r.totalExpenses == Sum(matched, AmountOf)
      && (matched == [] ==> r.totalExpenses == 0.0 && r.categoryStats == [])
    ensures SortedDesc(r.categoryStats, GroupTotal)
    ensures var recent := Filter(expenses, SinceMatch(requester, sixMonthsAgo));
      && GroupsOf(r.monthlyStats, recent, MonthKey(monthOf), AmountOf)
      && Sum(r.monthlyStats, GroupTotal) == Sum(recent, AmountOf)
    ensures forall i, j :: 0 <= i < j < |r.monthlyStats| ==> r.monthlyStats[i].key < r.monthlyStats[j].key
  {
    var matched := Filter(expenses, StatsMatch(requester, startDate, endDate));
    var total := if |matched| == 0 then 0.0 else Sum(matched, AmountOf);
    ExpenseStats(CategoryRows(matched), total, MonthRows(Filter(expenses, SinceMatch(requester, sixMonthsAgo)), monthOf))
  }

  /** The stored `user` field, an ObjectId, against a `$match` value. */
  function UserMatches(v: QueryValue): Expense -> bool {
    (e: Expense) => ObjectIdValue(e.user) == v
  }

  /** getExpenseStats as written: all three pipelines `$match` the ObjectId field
      with the text `req.user.id`, which no stored expense equals, so every part
      of the answer is empty or 0 whatever is stored. */
  function StatsAsWritten(expenses: seq<Expense>, requester: Id, startDate: Option<int>, endDate: Option<int>,
                          sixMonthsAgo: int, monthOf: int -> int): (r: ExpenseStats)
    ensures r.categoryStats == [] && r.totalExpenses == 0.0 && r.monthlyStats == []
  {
    var sent := TextValue(requester);
    var matched := Filter(expenses, (e: Expense) => UserMatches(sent)(e) && InRange(e, startDate, endDate));
    var recent := Filter(expenses, (e: Expense) => UserMatches(sent)(e) && e.date >= sixMonthsAgo);
    assert forall i :: 0 <= i < |expenses| ==> !UserMatches(sent)(expenses[i]);
    FilterNone(expenses, (e: Expense) => UserMatches(sent)(e) && InRange(e, startDate, endDate));
    FilterNone(expenses, (e: Expense) => UserMatches(sent)(e) && e.date >= sixMonthsAgo);
    ExpenseStats(CategoryRows(matched), if matched == [] then 0.0 else Sum(matched, AmountOf), MonthRows(recent, monthOf))
  }

  /** One recent expense: as written the statistics show nothing; matched on the
      cast id, its category row, its amount and its month row appear. */
  lemma StatsAsWrittenShowNothing(e: Expense, monthOf: int -> int)
    requires e.amount > 0.0
    ensures var r := StatsAsWritten([e], e.user, None, None, e.date, monthOf);
      r.categoryStats == [] && r.totalExpenses == 0.0 && r.monthlyStats == []
    ensures var r := StatsOf([e], e.user, None, None, e.date, monthOf);
      && r.categoryStats == [Group(e.category, 1, e.amount)] && r.totalExpenses == e.amount
      && r.monthlyStats == [Group(monthOf(e.date), 1, e.amount)]
  {
    OneExpenseStats(e, monthOf);
  }

  lemma OneExpenseStats(e: Expense, monthOf: int -> int)
    ensures var r := StatsOf([e], e.user, None, None, e.date, monthOf);
      && r.categoryStats == [Group(e.category, 1, e.amount)] && r.totalExpenses == e.amount
      && r.monthlyStats == [Group(monthOf(e.date), 1, e.amount)]
  {
    var matched := Filter([e], StatsMatch(e.user, None, None));
    var recent := Filter([e], SinceMatch(e.user, e.date));
    assert matched == [e] && recent == [e];
    OneCategoryRow(e);
    OneMonthRow(e, monthOf);
    assert Sum([e], AmountOf) == e.amount + Sum([e][1..], AmountOf);
  }

  lemma OneCategoryRow(e: Expense)
    ensures CategoryRows([e]) == [Group(e.category, 1, e.amount)]
  {
    SingleGroup(CategoryRows([e]), [e], CategoryOf, AmountOf);
  }

  lemma OneMonthRow(e: Expense, monthOf: int -> int)
    ensures MonthRows([e], monthOf) == [Group(monthOf(e.date), 1, e.amount)]
  {
    SingleGroup(MonthRows([e], monthOf), [e], MonthKey(monthOf), AmountOf);
  }

  /** GET /api/expenses/stats. */
  method GetExpenseStats(db: Store.Database, requester: Id, startDate: Option<int>, endDate: Option<int>,
                         sixMonthsAgo: int, monthOf: int -> int) returns (r: ExpenseStats)
    ensures r == StatsOf(db.expenses, requester, startDate, endDate, sixMonthsAgo, monthOf)
  {
    r := StatsOf(db.expenses, requester, startDate, endDate, sixMonthsAgo, monthOf);
  }

  /** GET /api/expenses/categories: the handler's own list is the schema's enum,
      in the same order. */
  method GetExpenseCategories() returns (r: seq<string>)
    ensures |r| == 12 && r == Categories
    ensures forall c :: c in r <==> c in Categories
  {
    r := ["Food & Dining", "Transportation", "Shopping", "Entertainment", "Healthcare",
          "Education", "Housing", "Utilities", "Insurance", "Travel", "Business", "Other"];
  }

  // ---------------------------------------------------------------------------
  // Route pipelines

  /** POST /: 400 when the chain rejects, otherwise 201 with the sanitized body. */
  method PostExpense(db: Store.Database, requester: Id, b: ExpenseBody, newId: Id, now: int)
    returns (code: nat, created: Option<Expense>)
    requires db.Valid() && db.FreshExpenseId(newId)
    modifies db
    ensures db.Valid()
    ensures !CreateValid(b) ==> code == BAD_REQUEST && created.None? && unchanged(db)
    ensures CreateValid(b) ==> CreateClean(Sanitized(b))
    ensures CreateValid(b) ==>
      && db.users == old(db.users) && db.clients == old(db.clients) && db.invoices == old(db.invoices)
      && code == CREATED && created == Some(NewExpense(requester, Sanitized(b), newId, now))
      && db.expenses == old(db.expenses) + [created.value]
  {
    if !CreateValid(b) {
      return BAD_REQUEST, None;
    }
    SanitizedCreateIsClean(b);
    var e;
    code, e := CreateExpense(db, requester, Sanitized(b), newId, now);
    created := Some(e);
  }

  /** PUT /:id. */
  method PutExpense(db: Store.Database, requester: Id, id: Id, b: ExpenseBody)
    returns (code: nat, updated: Option<Expense>)
    requires db.Valid()
    modifies db
    ensures db.Valid()
    ensures !UpdateValid(b) ==> code == BAD_REQUEST && updated.None? && unchanged(db)
    ensures UpdateValid(b) ==>
      && db.users == old(db.users) && db.clients == old(db.clients) && db.invoices == old(db.invoices)
      && code == GuardCode(old(db.ExpenseOwner(id)), requester)
      && (code != OK ==> updated.None? && db.expenses == old(db.expenses))
      && (code == OK ==>
        var k := old(db.FindExpense(id)).value;
        var u := UpdatedExpense(old(db.expenses)[k], Sanitized(b));
        updated == Some(u) && db.expenses == old(db.expenses)[k := u])
  {
    if !UpdateValid(b) {
      return BAD_REQUEST, None;
    }
    SanitizedUpdateIsClean(b);
    code, updated := UpdateExpense(db, requester, id, Sanitized(b));
  }
}

/** client/src/components/expenses/ExpenseList.tsx: the category tabs built from the
    expenses, their count badges, the category filter, the colour a category is
    drawn in, and the newest-first order of the listing. */
module ExpenseList {
  import opened Common
  import opened Folds
  import opened UiTypes

  /** `[...new Set(expenses.map(e => e.category))]`: each category that occurs, once. */
  function Categories(expenses: seq<Expense>): (r: seq<string>)
    ensures NoDup(r) && |r| <= |expenses|
    ensures forall c :: c in r <==> exists i :: 0 <= i < |expenses| && CategoryOf(expenses[i]) == c
  {
    var ks := KeysOf(expenses, CategoryOf);
    DistinctLength(ks);
    forall c ensures c in ks <==> exists i :: 0 <= i < |expenses| && CategoryOf(expenses[i]) == c {
      if exists i :: 0 <= i < |expenses| && CategoryOf(expenses[i]) == c {
        var i :| 0 <= i < |expenses| && CategoryOf(expenses[i]) == c;
        assert ks[i] == c;
      }
    }
    Distinct(ks)
  }

  /** The tabs follow the order in which each category first occurs. */
  lemma CategoriesInFirstOccurrenceOrder(expenses: seq<Expense>)
    ensures var r := Categories(expenses);
      forall p, q :: 0 <= p < q < |r| ==> SeenBefore(KeysOf(expenses, CategoryOf), r[p], r[q])
  {
    DistinctOrder(KeysOf(expenses, CategoryOf));
  }

  /** Whether an expense is listed under the selected tab ('all' or a category). */
  predicate Shows(filter: string, e: Expense) {
    filter == "all" || CategoryOf(e) == filter
  }

  /** `filteredExpenses`, before it is sorted. */
  function Shown(expenses: seq<Expense>, filter: string): (r: seq<Expense>)
    ensures forall i :: 0 <= i < |r| ==> r[i] in expenses && Shows(filter, r[i])
    ensures forall i :: 0 <= i < |expenses| && Shows(filter, expenses[i]) ==> expenses[i] in r
  {
    Filter(expenses, e => Shows(filter, e))
  }

  /** 'all' keeps every expense; a category keeps exactly the expenses in it, as
      many as its badge counts, in store order. */
  lemma FilterKeepsCategory(expenses: seq<Expense>, more: seq<Expense>, c: string)
    ensures Shown(expenses, "all") == expenses
    ensures c != "all" ==> |Shown(expenses, c)| == CountWhere(expenses, CategoryOf, c)
    ensures c != "all" ==> forall i :: 0 <= i < |Shown(expenses, c)| ==> CategoryOf(Shown(expenses, c)[i]) == c
    ensures Shown(expenses + more, c) == Shown(expenses, c) + Shown(more, c)
  {
    FilterKeepsAll(expenses, e => Shows("all", e));
    if c != "all" {
      FilterWhere(expenses, e => Shows(c, e), CategoryOf, c, AmountOf);
    }
    FilterAppend(expenses, more, e => Shows(c, e));
  }

  /** A category tab's badge: `expenses.filter(exp => exp.category === c).length`. */
  function CategoryBadge(expenses: seq<Expense>, c: string): (n: nat)
    ensures n <= |expenses|
    ensures n > 0 <==> c in Categories(expenses)
  {
    CountWhereBound(expenses, CategoryOf, c);
    CountWhere(expenses, CategoryOf, c)
  }

  /** The category badges add up to the 'All' badge, `expenses.length`. */
  lemma CategoryBadgesAddUp(expenses: seq<Expense>)
    ensures CountGroups(Categories(expenses), expenses, CategoryOf) == |expenses|
  {
    var ks := Categories(expenses);
    forall i | 0 <= i < |expenses| ensures CategoryOf(expenses[i]) in ks {
    }
    GroupsPartition(ks, expenses, CategoryOf, AmountOf);
  }

  // ---------------------------------------------------------------------------
  // getCategoryColor

  datatype Hue = Blue | Green | Purple | Orange | Pink | Indigo

  const Palette: seq<Hue> := [Blue, Green, Purple, Orange, Pink, Indigo]

  /** `category.length % colors.length`. */
  function ColorIndex(category: string): (i: nat)
    ensures i < |Palette|
    ensures exists k: nat :: |category| == k * |Palette| + i
  {
    var i := |category| % |Palette|;
    assert |category| == (|category| / |Palette|) * |Palette| + i;
    i
  }

  function CategoryColor(category: string): (h: Hue)
    ensures h == Palette[ColorIndex(category)]
  {
    Palette[ColorIndex(category)]
  }

  /** The colour depends on the length alone, so different categories may share
      one: "Food & Dining" and "Entertainment" are both green. */
  lemma ColorByLength(c: string, d: string)
    ensures |c| == |d| ==> CategoryColor(c) == CategoryColor(d)
    ensures CategoryColor("Food & Dining") == CategoryColor("Entertainment") == Green
  {
    assert |"Food & Dining"| == 13 && |"Entertainment"| == 13;
  }

  // ---------------------------------------------------------------------------
  // The listing: `filteredExpenses.sort((a, b) => date(b) - date(a))`

  /** `sort` on the array, newest first: the model computes the sorted sequence
      `SortDesc` of the array's contents and writes it back into the same array,
      so the array afterwards holds a permutation of what it held. */
  method SortByDateDesc(a: array<Expense>)
    modifies a
    ensures a[..] == SortDesc(old(a[..]), DateOf)
    ensures SortedDesc(a[..], DateOf) && multiset(a[..]) == multiset(old(a[..]))
  {
    var sorted := SortDesc(a[..], DateOf);
    forall i | 0 <= i < a.Length {
      a[i] := sorted[i];
    }
  }

  /** The filter builds a new array, which the sort then reorders; the store's list
      is left as it was. */
  method Listing(expenses: seq<Expense>, filter: string) returns (shown: array<Expense>)
    ensures fresh(shown)
    ensures shown[..] == SortDesc(Shown(expenses, filter), DateOf)
    ensures SortedDesc(shown[..], DateOf)
    ensures multiset(shown[..]) == multiset(Shown(expenses, filter))
  {
    var kept := Shown(expenses, filter);
    shown := new Expense[|kept|](i requires 0 <= i < |kept| => kept[i]);
    assert shown[..] == kept;
    SortByDateDesc(shown);
  }
}

/** client/src/components/dashboard/StatsPanel.tsx: revenue, expenses, net income
    and the paid share of the invoices. */
module StatsPanel {
  import opened Common
  import opened Folds
  import opened UiTypes
  import InvoicesPage

  /** `Math.round(paid / count * 100)` when there are invoices, else 0: the whole
      percentage nearest to the paid share, halves rounded up. */
  function PaymentRate(paid: nat, count: nat): (r: nat)
    ensures count == 0 ==> r == 0
    ensures count > 0 ==>
      (r as real) - 0.5 <= (paid as real) * 100.0 / (count as real) < (r as real) + 0.5
    ensures paid <= count ==> r <= 100
    ensures count > 0 && paid == count ==> r == 100
    ensures paid == 0 ==> r == 0
  {
    if count == 0 then 0
    else
      var r := (200 * paid + count) / (2 * count);
      RoundedShare(paid, count, r);
      r
  }

  /** The integer formula is rounding half up of `100 * paid / count`. */
  lemma RoundedShare(paid: nat, count: nat, r: nat)
    requires count > 0 && r == (200 * paid + count) / (2 * count)
    ensures (r as real) - 0.5 <= (paid as real) * 100.0 / (count as real) < (r as real) + 0.5
    ensures paid <= count ==> r <= 100
    ensures paid == count ==> r == 100
    ensures paid == 0 ==> r == 0
  {
    var n, d := 200 * paid + count, 2 * count;
    assert d * r <= n < d * r + d;
    NearestWhole(paid, count, r);
    MulLess(d, r, 101);
    MulLess(d, 99, r);
    MulLess(d, r, 1);
    assert d * 101 == 202 * count && d * 99 + d == 200 * count && d * 1 == d;
  }

  /** A positive factor keeps the order of integers. */
  lemma MulLess(d: int, a: int, b: int)
    requires d > 0
    ensures d * a < d * b <==> a < b
  {
    assert d * b - d * a == d * (b - a);
  }

  /** `2 c r <= 200 p + c < 2 c r + 2 c` puts `100 p / c` within half of `r`. */
  lemma NearestWhole(paid: nat, count: nat, r: nat)
    requires count > 0 && 2 * count * r <= 200 * paid + count < 2 * count * r + 2 * count
    ensures (r as real) - 0.5 <= (paid as real) * 100.0 / (count as real) < (r as real) + 0.5
  {
    var x := (paid as real) * 100.0 / (count as real);
    var s := (2 * count) as real;
    assert x * s == (200 * paid) as real;
    assert ((r as real) - 0.5) * s == (2 * count * r - count) as real;
    assert ((r as real) + 0.5) * s == (2 * count * r + count) as real;
    Between(x, (r as real) - 0.5, (r as real) + 0.5, s, (2 * count * r - count) as real, (2 * count * r + count) as real, (200 * paid) as real);
  }

  /** Bounds on `x s` carry over to `x` when `s > 0`. */
  lemma Between(x: real, a: real, b: real, s: real, lo: real, hi: real, v: real)
    requires s > 0.0 && x * s == v && a * s == lo && b * s == hi
    requires lo <= v < hi
    ensures a <= x < b
  {
    ScaleCompare(a, x, s);
    ScaleCompare(b, x, s);
  }

  datatype Cards = Cards(revenue: real, expenses: real, net: real, paid: nat, count: nat, rate: nat)

  /** The four cards: 'Total Revenue', 'Total Expenses', 'Net Income' (their
      difference) and 'Paid Invoices' as paid/count with the rounded rate. */
  function PanelCards(invoices: seq<Invoice>, expenses: seq<Expense>): (r: Cards)
    ensures r.revenue == Sum(invoices, TotalOf) && r.expenses == Sum(expenses, AmountOf)
    ensures r.net == r.revenue - r.expenses
    ensures r.count == |invoices| && r.paid == CountWhere(invoices, StatusOf, Paid)
    ensures r.paid <= r.count && r.rate <= 100
    ensures r.count == 0 ==> r.rate == 0
  {
    var revenue := Sum(invoices, TotalOf);
    var spent := Sum(expenses, AmountOf);
    var paid := InvoicesPage.StatusCount(invoices, Paid);
    CountWhereBound(invoices, StatusOf, Paid);
    Cards(revenue, spent, revenue - spent, paid, |invoices|, PaymentRate(paid, |invoices|))
  }
}

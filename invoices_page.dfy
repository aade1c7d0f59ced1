/** client/src/pages/Invoices.tsx: the four summary cards above the invoice list. */
module InvoicesPage {
  import opened Common
  import opened Folds
  import opened UiTypes
  import InvoiceList

  /** `invoices.filter(inv => inv.status === st).length`: the same number the status
      tab's badge shows. */
  function StatusCount(invoices: seq<Invoice>, st: Status): (n: nat)
    ensures n == CountWhere(invoices, StatusOf, st)
    ensures n == InvoiceList.Badge(invoices, InvoiceList.Only(st))
  {
    assert InvoiceList.Badge(invoices, InvoiceList.Only(st)) == CountWhere(invoices, StatusOf, st);
    |InvoiceList.Filtered(invoices, InvoiceList.Only(st))|
  }

  /** Sent and paid are two of the four statuses, so together they are no more
      than all invoices. */
  lemma SentAndPaidWithinAll(invoices: seq<Invoice>)
    ensures StatusCount(invoices, Sent) + StatusCount(invoices, Paid) <= |invoices|
  {
    InvoiceList.BadgesAddUp(invoices);
    InvoiceList.AllTabListsEverything(invoices);
  }

  /** The amount billed splits by status: the four per-status sums add up to it. */
  lemma {:induction false} AmountSplitsByStatus(invoices: seq<Invoice>)
    ensures Sum(invoices, TotalOf)
         == SumWhere(invoices, StatusOf, Draft, TotalOf) + SumWhere(invoices, StatusOf, Sent, TotalOf)
          + SumWhere(invoices, StatusOf, Paid, TotalOf) + SumWhere(invoices, StatusOf, Overdue, TotalOf)
  {
    if invoices != [] {
      AmountSplitsByStatus(invoices[1..]);
      var x := invoices[0];
      assert Sum(invoices, TotalOf) == TotalOf(x) + Sum(invoices[1..], TotalOf);
      assert x.fields.status == Draft || x.fields.status == Sent || x.fields.status == Paid || x.fields.status == Overdue;
    }
  }

  datatype Cards = Cards(count: nat, amount: real, pending: nat, paid: nat)

  /** 'Total Invoices', 'Total Amount', 'Pending' (the sent ones) and 'Paid'. */
  function PageCards(invoices: seq<Invoice>): (r: Cards)
    ensures r.count == |invoices| == InvoiceList.Badge(invoices, InvoiceList.AllStatuses)
    ensures r.amount == Sum(invoices, TotalOf)
    ensures (forall i :: 0 <= i < |invoices| ==> TotalOf(invoices[i]) >= 0.0) ==> r.amount >= 0.0
    ensures r.pending == CountWhere(invoices, StatusOf, Sent)
    ensures r.paid == CountWhere(invoices, StatusOf, Paid)
    ensures r.pending + r.paid <= r.count
  {
    SentAndPaidWithinAll(invoices);
    assert (forall i :: 0 <= i < |invoices| ==> TotalOf(invoices[i]) >= 0.0) ==> Sum(invoices, TotalOf) >= 0.0 by {
      if forall i :: 0 <= i < |invoices| ==> TotalOf(invoices[i]) >= 0.0 {
        SumNonNeg(invoices, TotalOf);
      }
    }
    Cards(|invoices|, Sum(invoices, TotalOf), StatusCount(invoices, Sent), StatusCount(invoices, Paid))
  }
}

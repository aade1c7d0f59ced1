/** client/src/components/invoice/InvoiceList.tsx: the status tabs over the invoice
    list, their count badges, the status menu each invoice offers, and the badge
    colour and icon a status string is shown with. */
module InvoiceList {
  import opened Common
  import opened Folds
  import opened UiTypes

  /** The tab selected: 'all', or one status. */
  datatype StatusFilter = AllStatuses | Only(status: Status)

  /** The tabs in the order they are drawn. */
  const Tabs: seq<StatusFilter> := [AllStatuses, Only(Draft), Only(Sent), Only(Paid), Only(Overdue)]

  /** Whether an invoice is listed under a tab. */
  predicate Keeps(f: StatusFilter, inv: Invoice) {
    f.AllStatuses? || StatusOf(inv) == f.status
  }

  /** `filteredInvoices`: the invoices listed under the selected tab. */
  function Filtered(invoices: seq<Invoice>, f: StatusFilter): (r: seq<Invoice>)
    ensures forall i :: 0 <= i < |r| ==> r[i] in invoices && Keeps(f, r[i])
    ensures forall i :: 0 <= i < |invoices| && Keeps(f, invoices[i]) ==> invoices[i] in r
  {
    Filter(invoices, inv => Keeps(f, inv))
  }

  /** The 'all' tab lists every invoice, in store order. */
  lemma AllTabListsEverything(invoices: seq<Invoice>)
    ensures Filtered(invoices, AllStatuses) == invoices
  {
    FilterKeepsAll(invoices, inv => Keeps(AllStatuses, inv));
  }

  /** A status tab lists exactly the invoices with that status, as many as carry it,
      in store order: the listing of a concatenation is the concatenation of the
      listings, and one invoice is listed iff its status is the tab's. */
  lemma StatusTabListsExactly(a: seq<Invoice>, b: seq<Invoice>, st: Status, inv: Invoice)
    ensures |Filtered(a, Only(st))| == CountWhere(a, StatusOf, st)
    ensures forall i :: 0 <= i < |Filtered(a, Only(st))| ==> StatusOf(Filtered(a, Only(st))[i]) == st
    ensures Filtered(a + b, Only(st)) == Filtered(a, Only(st)) + Filtered(b, Only(st))
    ensures Filtered([inv], Only(st)) == (if StatusOf(inv) == st then [inv] else [])
  {
    var p := (x: Invoice) => Keeps(Only(st), x);
    FilterWhere(a, p, StatusOf, st, TotalOf);
    FilterAppend(a, b, p);
    assert [inv][1..] == [];
  }

  /** The count badge on a tab: the list length on 'all', otherwise the number of
      invoices with the tab's status, counted apart from the listing. */
  function Badge(invoices: seq<Invoice>, f: StatusFilter): (n: nat)
    ensures n <= |invoices|
    ensures n == |Filtered(invoices, f)|
  {
    match f
    case AllStatuses =>
      AllTabListsEverything(invoices);
      |invoices|
    case Only(st) =>
      CountWhereBound(invoices, StatusOf, st);
      FilterWhere(invoices, inv => Keeps(f, inv), StatusOf, st, TotalOf);
      CountWhere(invoices, StatusOf, st)
  }

  /** The four status badges add up to the 'all' badge: every invoice has exactly
      one status. */
  lemma {:induction false} BadgesAddUp(invoices: seq<Invoice>)
    ensures Badge(invoices, Only(Draft)) + Badge(invoices, Only(Sent))
          + Badge(invoices, Only(Paid)) + Badge(invoices, Only(Overdue))
         == Badge(invoices, AllStatuses)
  {
    if invoices != [] {
      BadgesAddUp(invoices[1..]);
    }
  }

  /** The statuses the 'Change Status' menu offers, in order. */
  const StatusMenu: seq<Status> := [Draft, Sent, Paid, Overdue]

  /** The menu offers every status exactly once, and each entry's name is one the
      status patch validator accepts. */
  lemma StatusMenuComplete(st: Status)
    ensures st in StatusMenu
    ensures NoDup(StatusMenu) && |StatusMenu| == 4
    ensures forall k :: 0 <= k < |StatusMenu| ==> ParseStatus(StatusName(StatusMenu[k])) == Some(StatusMenu[k])
  {
    forall k | 0 <= k < |StatusMenu|
      ensures ParseStatus(StatusName(StatusMenu[k])) == Some(StatusMenu[k])
    {
      StatusRoundTrip(StatusMenu[k], StatusName(StatusMenu[k]));
    }
  }

  // ---------------------------------------------------------------------------
  // getStatusColor and getStatusIcon switch on the status text

  datatype Tone = GreenTone | BlueTone | RedTone | GrayTone

  datatype StatusIcon = CheckCircle | Clock | AlertCircle | FileText

  /** `getStatusColor`. */
  function ToneFor(status: string): (t: Tone)
    ensures t == GrayTone <==> status != "paid" && status != "sent" && status != "overdue"
  {
    if status == "paid" then GreenTone
    else if status == "sent" then BlueTone
    else if status == "overdue" then RedTone
    else GrayTone
  }

  /** `getStatusIcon`. */
  function IconFor(status: string): (i: StatusIcon)
    ensures i == FileText <==> status != "paid" && status != "sent" && status != "overdue"
  {
    if status == "paid" then CheckCircle
    else if status == "sent" then Clock
    else if status == "overdue" then AlertCircle
    else FileText
  }

  /** The colour each icon is drawn in. */
  function IconTone(i: StatusIcon): Tone {
    match i
    case CheckCircle => GreenTone
    case Clock => BlueTone
    case AlertCircle => RedTone
    case FileText => GrayTone
  }

  /** Icon and badge agree on every text; on a stored status, only a draft falls to
      the default case, and the other three statuses are told apart. */
  lemma StatusLooks(status: string, a: Status, b: Status)
    ensures IconTone(IconFor(status)) == ToneFor(status)
    ensures ToneFor(StatusName(a)) == GrayTone <==> a == Draft
    ensures a != Draft && b != Draft && a != b ==> ToneFor(StatusName(a)) != ToneFor(StatusName(b))
  {
  }
}

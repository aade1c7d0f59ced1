/** client/src/redux/invoiceSlice.ts: the browser's invoice and client lists, their
    synchronous reducers, and what each thunk does to them once it settles. */
module InvoiceSlice {
  import opened Common
  import opened Folds
  import opened UiTypes
  import opened SliceOps

  // ---------------------------------------------------------------------------
  // Thunk outcomes

  /** `createInvoice` and `createClient`: a thrown request rejects with its message,
      an answer with `success` false rejects with the answer's message or the
      default, and any other answer fulfils with `data` (possibly absent). */
  function CreateOutcome<T>(reply: Reply<T>, fallback: string): (r: Outcome<Option<T>>)
    ensures r.Fulfilled? <==> reply.Answered? && reply.success
    ensures r.Fulfilled? ==> r.value == reply.data
    ensures reply.Thrown? ==> r == Rejected(OrElse(reply.message, "Unknown error"))
    ensures reply.Answered? && !reply.success ==> r == Rejected(OrElse(reply.message, fallback))
  {
    match reply
    case Thrown(m) => Rejected(OrElse(m, "Unknown error"))
    case Answered(success, m, data) => if success then Fulfilled(data) else Rejected(OrElse(m, fallback))
  }

  /** `find(inv => inv.id === id)` then `invoice.status = status`: only the status of
      the first invoice with that id changes. */
  function StatusSet(s: seq<Invoice>, id: string, st: Status): (r: seq<Invoice>)
    ensures |r| == |s|
    ensures forall j :: 0 <= j < |s| ==>
      || r[j] == s[j]
      || (&& r[j] == s[j].(fields := s[j].fields.(status := st))
          && s[j].id == Str(id)
          && forall i :: 0 <= i < j ==> s[i].id != Str(id))
    ensures (forall j :: 0 <= j < |s| ==> s[j].id != Str(id)) ==> r == s
  {
    match IndexOf(s, IdOf, Str(id))
    case None => s
    case Some(k) => s[k := s[k].(fields := s[k].fields.(status := st))]
  }

  /** The status patch changes no total, so the dashboards' sums are unaffected. */
  lemma {:induction false} StatusSetKeepsTotals(s: seq<Invoice>, id: string, st: Status)
    ensures Sum(StatusSet(s, id, st), TotalOf) == Sum(s, TotalOf)
  {
    var r := StatusSet(s, id, st);
    forall j | 0 <= j < |s| ensures TotalOf(s[j]) == TotalOf(r[j]) {
    }
    SumPointwise(s, TotalOf, r, TotalOf);
  }

  // ---------------------------------------------------------------------------
  // The slice

  class InvoiceState {
    var invoices: seq<Invoice>
    var clients: seq<Client>

    /** Every record in the lists carries a string id. The synchronous reducers are
        typed to take records with one, and the fetch and create cases normalise. */
    ghost predicate Valid()
      reads this
    {
      AllStringIds(invoices) && AllStringIds(clients)
    }

    /** `initialState`. */
    constructor ()
      ensures Valid() && invoices == [] && clients == []
    {
      invoices, clients := [], [];
    }

    method AddInvoice(x: Invoice)
      requires Valid() && x.id.Str?
      modifies this
      ensures Valid()
      ensures invoices == old(invoices) + [x] && clients == old(clients)
    {
      StringIdsKept(invoices, x, "");
      invoices := invoices + [x];
    }

    method UpdateInvoice(x: Invoice)
      requires Valid() && x.id.Str?
      modifies this
      ensures Valid()
      ensures invoices == ReplaceFirst(old(invoices), x) && clients == old(clients)
    {
      StringIdsKept(invoices, x, "");
      invoices := ReplaceFirst(invoices, x);
    }

    method DeleteInvoice(id: string)
      requires Valid()
      modifies this
      ensures Valid()
      ensures invoices == RemoveWhere(old(invoices), IdOf, Str(id)) && clients == old(clients)
    {
      StringIdsKept(invoices, Rec(Str(id), Undefined, InvoiceFields("", "", "", 0, 0, [], 0.0, 0.0, 0.0, Draft, 0)), id);
      invoices := RemoveWhere(invoices, IdOf, Str(id));
    }

    method UpdateInvoiceStatus(id: string, st: Status)
      requires Valid()
      modifies this
      ensures Valid()
      ensures invoices == StatusSet(old(invoices), id, st) && clients == old(clients)
    {
      invoices := StatusSet(invoices, id, st);
    }

    method AddClient(x: Client)
      requires Valid() && x.id.Str?
      modifies this
      ensures Valid()
      ensures clients == old(clients) + [x] && invoices == old(invoices)
    {
      StringIdsKept(clients, x, "");
      clients := clients + [x];
    }

    method UpdateClient(x: Client)
      requires Valid() && x.id.Str?
      modifies this
      ensures Valid()
      ensures clients == ReplaceFirst(old(clients), x) && invoices == old(invoices)
    {
      StringIdsKept(clients, x, "");
      clients := ReplaceFirst(clients, x);
    }

    method DeleteClient(id: string)
      requires Valid()
      modifies this
      ensures Valid()
      ensures clients == RemoveWhere(old(clients), IdOf, Str(id)) && invoices == old(invoices)
    {
      StringIdsKept(clients, Rec(Str(id), Undefined, ClientFields("", "", "", "", 0)), id);
      clients := RemoveWhere(clients, IdOf, Str(id));
    }

    // -------------------------------------------------------------------------
    // Settled thunks (a rejected thunk has no case here and changes nothing)

    /** `fetchInvoices.fulfilled`: the list becomes the normalised payload. */
    method FetchInvoicesSettled(p: Payload<Invoice>, drawn: nat -> string)
      requires Valid()
      modifies this
      ensures Valid() && clients == old(clients)
      ensures Fetched(p, drawn).Fulfilled? ==> invoices == Fetched(p, drawn).value
      ensures Fetched(p, drawn).Rejected? ==> invoices == old(invoices)
    {
      var o := Fetched(p, drawn);
      if o.Fulfilled? {
        invoices := o.value;
      }
    }

    method FetchClientsSettled(p: Payload<Client>, drawn: nat -> string)
      requires Valid()
      modifies this
      ensures Valid() && invoices == old(invoices)
      ensures Fetched(p, drawn).Fulfilled? ==> clients == Fetched(p, drawn).value
      ensures Fetched(p, drawn).Rejected? ==> clients == old(clients)
    {
      var o := Fetched(p, drawn);
      if o.Fulfilled? {
        clients := o.value;
      }
    }

    /** `createInvoice`: appends the normalised invoice when the thunk fulfils with
        one; a rejection or an empty payload leaves the list alone. */
    method CreateInvoiceSettled(reply: Reply<Invoice>, drawn: string)
      requires Valid()
      modifies this
      ensures Valid() && clients == old(clients)
      ensures var o := CreateOutcome(reply, "Failed to create invoice");
      if o.Fulfilled? && o.value.Some? then invoices == old(invoices) + [Normalized(o.value.value, drawn)]
      else invoices == old(invoices)
    {
      var o := CreateOutcome(reply, "Failed to create invoice");
      if o.Fulfilled? && o.value.Some? {
        var x := Normalized(o.value.value, drawn);
        StringIdsKept(invoices, x, "");
        invoices := invoices + [x];
      }
    }

    method CreateClientSettled(reply: Reply<Client>, drawn: string)
      requires Valid()
      modifies this
      ensures Valid() && invoices == old(invoices)
      ensures var o := CreateOutcome(reply, "Failed to create client");
      if o.Fulfilled? && o.value.Some? then clients == old(clients) + [Normalized(o.value.value, drawn)]
      else clients == old(clients)
    {
      var o := CreateOutcome(reply, "Failed to create client");
      if o.Fulfilled? && o.value.Some? {
        var x := Normalized(o.value.value, drawn);
        StringIdsKept(clients, x, "");
        clients := clients + [x];
      }
    }

    /** `updateInvoiceAsync.fulfilled` and `updateInvoiceStatusAsync.fulfilled`: the
        payload replaces the invoice with the same `id`, without being normalised.
        A server invoice carries only `_id`, so such a payload changes nothing. */
    method UpdateInvoiceSettled(reply: Reply<Invoice>)
      requires Valid()
      modifies this
      ensures Valid() && clients == old(clients)
      ensures var o := UnCheckedOutcome(reply);
      if o.Fulfilled? && o.value.Some? && o.value.value.id.Str? then invoices == ReplaceFirst(old(invoices), o.value.value)
      else invoices == old(invoices)
    {
      var o := UnCheckedOutcome(reply);
      if o.Fulfilled? && o.value.Some? {
        var x := o.value.value;
        if x.id.Str? {
          StringIdsKept(invoices, x, "");
        } else {
          ReplaceWithoutIdIsNoOp(invoices, x);
        }
        invoices := ReplaceFirst(invoices, x);
      }
    }

    /** `deleteInvoiceAsync.fulfilled`: every invoice with the id goes. */
    method DeleteInvoiceSettled(reply: Reply<Invoice>, id: string)
      requires Valid()
      modifies this
      ensures Valid() && clients == old(clients)
      ensures DeleteOutcome(reply, id).Fulfilled? ==> invoices == RemoveWhere(old(invoices), IdOf, Str(id))
      ensures DeleteOutcome(reply, id).Rejected? ==> invoices == old(invoices)
    {
      if DeleteOutcome(reply, id).Fulfilled? {
        DeleteInvoice(id);
      }
    }
  }
}

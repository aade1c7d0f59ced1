/** server/controllers/invoiceController.js: the seven invoice handlers over the
    database, and the route pipelines of server/routes/invoice.js that run the
    validation chain before a handler. Every handler answers with a status code
    and, where the source sends one, the invoice. */
module InvoiceController {
  import opened Common
  import opened Folds
  import opened InvoiceModel
  import opened InvoiceRoutes
  import ClientModel
  import Store

  // ---------------------------------------------------------------------------
  // createInvoice

  /** `tax = 0` in the destructuring: the default applies only when `tax` is absent. */
  function TaxOf(tax: Field<real>): (r: real)
    requires OptionalFloatAtLeast(tax, 0.0)
    ensures r >= 0.0
    ensures tax.Given? ==> r == tax.value
    ensures tax.Missing? ==> r == 0.0
  {
    if tax.Given? then tax.value else 0.0
  }

  /** The number as the `trim` setter stores it; an absent number is empty. */
  function NumberText(n: Option<string>): (r: string)
    ensures n.None? ==> r == []
    ensures n.Some? ==> (r == [] <==> IsBlank(n.value))
  {
    match n
    case None => []
    case Some(v) => Trim(v)
  }

  /** One line as createInvoice stores it: the sent fields, `amount = quantity * rate`
      and the description through the `trim` setter. */
  function Priced(it: ItemBody): (r: Item)
    requires ItemValid(it)
    ensures ItemOk(r) && r.amount == LineValue(r)
    ensures r.quantity == it.quantity.value && r.rate == it.rate.value
    ensures r.description == Trim(it.description.value)
  {
    var q := it.quantity.value;
    var rt := it.rate.value;
    ProductNonNeg(q, rt);
    var d := Trim(it.description.value);
    assert d != [];
    Item(d, q, rt, q * rt)
  }

  /** `items.map(item => ({ ...item, amount: item.quantity * item.rate }))`. */
  function PricedItems(items: seq<ItemBody>): (r: seq<Item>)
    requires forall i :: 0 <= i < |items| ==> ItemValid(items[i])
    ensures |r| == |items|
    ensures forall i :: 0 <= i < |r| ==> ItemOk(r[i]) && r[i].amount == LineValue(r[i])
    ensures forall i :: 0 <= i < |items| ==>
      && ItemValid(items[i])
      && r[i].quantity == items[i].quantity.value && r[i].rate == items[i].rate.value
      && r[i].description == Trim(items[i].description.value)
  {
    seq(|items|, i requires 0 <= i < |items| => Priced(items[i]))
  }

  function SnapshotOf(c: ClientModel.Client): Snapshot {
    Snapshot(c.name, c.email, c.phone, c.address, c.company, c.taxId)
  }

  /** The document createInvoice hands to `Invoice.create`, before the hooks run. */
  function Drafted(c: ClientModel.Client, requester: Id, body: InvoiceBody, newId: Id, now: int): (d: Invoice)
    requires CreateValid(body)
    ensures |d.items| == |body.items.value|
    ensures forall i :: 0 <= i < |d.items| ==> ItemOk(d.items[i]) && d.items[i].amount == LineValue(d.items[i])
    ensures d.subtotal == Sum(d.items, Amount) && d.total == d.subtotal + d.tax
  {
    var items := PricedItems(body.items.value);
    var subtotal := Sum(items, Amount);
    var tax := TaxOf(body.tax);
    Invoice(newId, requester, body.clientId.value, NumberText(body.invoiceNumber),
            body.issueDate.value, body.dueDate.value, items, subtotal, tax, subtotal + tax,
            Draft, ClientModel.TrimOpt(body.notes), None, SnapshotOf(c), now)
  }

  /** The invoice createInvoice stores for client `c` once validation has passed
      and the save hooks have run. Lines are priced at quantity × rate, the subtotal
      is their sum, the total is subtotal plus tax, the number is the trimmed one
      sent, and the client's contact details are copied. The totals hook finds
      nothing to change. It satisfies the schema exactly when a number was sent and
      the client has a name and an e-mail. */
  function NewInvoice(c: ClientModel.Client, requester: Id, body: InvoiceBody, newId: Id, now: int): (inv: Invoice)
    requires CreateValid(body)
    ensures inv.id == newId && inv.user == requester && inv.client == body.clientId.value
    ensures inv.createdAt == now && inv.status == Draft && inv.paidDate.None?
    ensures inv.issueDate == body.issueDate.value && inv.dueDate == body.dueDate.value
    ensures |inv.items| == |body.items.value|
    ensures forall i :: 0 <= i < |inv.items| ==>
      && inv.items[i].quantity == body.items.value[i].quantity.value
      && inv.items[i].rate == body.items.value[i].rate.value
      && inv.items[i].amount == inv.items[i].quantity * inv.items[i].rate
    ensures inv.subtotal == Sum(inv.items, LineValue)
    ensures inv.tax == TaxOf(body.tax) && inv.total == inv.subtotal + inv.tax
    ensures inv.clientSnapshot == Snapshot(c.name, c.email, c.phone, c.address, c.company, c.taxId)
    ensures inv.invoiceNumber == NumberText(body.invoiceNumber)
    ensures forall i :: 0 <= i < |inv.items| ==> ItemOk(inv.items[i])
    ensures inv.subtotal >= 0.0 && inv.tax >= 0.0 && inv.total >= 0.0
    ensures SchemaOk(inv) <==> NumberText(body.invoiceNumber) != [] && c.name != [] && c.email != []
  {
    var d := Drafted(c, requester, body, newId, now);
    TotalsHookKeepsConsistent(d);
    HookAgreesWithLineValues(d.items);
    ItemsSumNonNeg(d.items);
    TotalsHook(d)
  }

  /** `Client.findOne({ _id: clientId, user: req.user.id })`. */
  function OwnedClient(clients: seq<ClientModel.Client>, requester: Id, clientId: Id): (r: Option<nat>)
    ensures r.Some? ==> r.value < |clients| && clients[r.value].id == clientId && clients[r.value].user == requester
    ensures r.None? <==> forall j :: 0 <= j < |clients| ==> !(clients[j].id == clientId && clients[j].user == requester)
  {
    IndexOf(clients, ClientKey, (clientId, requester))
  }

  function ClientKey(c: ClientModel.Client): (Id, Id) { (c.id, c.user) }

  /** POST /api/invoices, as a decision over the tables. 404 unless the client
      exists and belongs to the requester. Otherwise `Invoice.create` validates the
      document before its hooks, so a blank or absent number fails the schema, and
      that, like a clash on the unique invoice number, is a 500 (the catch block);
      otherwise the new invoice is created with 201. */
  function CreateResult(clients: seq<ClientModel.Client>, invoices: seq<Invoice>, requester: Id,
                        body: InvoiceBody, newId: Id, now: int): (r: (nat, Option<Invoice>))
    requires CreateValid(body)
    ensures r.0 in {CREATED, NOT_FOUND, SERVER_ERROR}
    ensures r.0 != CREATED ==> r.1.None?
    ensures r.0 == NOT_FOUND <==> OwnedClient(clients, requester, body.clientId.value).None?
    ensures r.0 != NOT_FOUND ==>
      var c := clients[OwnedClient(clients, requester, body.clientId.value).value];
      var inv := NewInvoice(c, requester, body, newId, now);
      && (r.0 == SERVER_ERROR <==> !SchemaOk(inv) || IndexOf(invoices, NumberOf, inv.invoiceNumber).Some?)
      && (ClientModel.SchemaOk(c) ==>
            (r.0 == SERVER_ERROR <==> NumberText(body.invoiceNumber) == []
                                      || IndexOf(invoices, NumberOf, NumberText(body.invoiceNumber)).Some?))
      && (r.0 == CREATED ==> r.1 == Some(inv))
  {
    match OwnedClient(clients, requester, body.clientId.value)
    case None => (NOT_FOUND, None)
    case Some(k) =>
      var inv := NewInvoice(clients[k], requester, body, newId, now);
      if !SchemaOk(inv) || IndexOf(invoices, NumberOf, inv.invoiceNumber).Some? then (SERVER_ERROR, None)
      else (CREATED, Some(inv))
  }

  /** A new invoice under a fresh id, created by the decision above, keeps the
      invoice table valid. */
  lemma CreatedIsStorable(clients: seq<ClientModel.Client>, invoices: seq<Invoice>, requester: Id,
                          body: InvoiceBody, newId: Id, now: int)
    requires Store.InvoicesValid(invoices) && CreateValid(body)
    requires IndexOf(invoices, IdOf, newId).None?
    ensures var r := CreateResult(clients, invoices, requester, body, newId, now);
      r.0 == CREATED ==> Store.InvoicesValid(invoices + [r.1.value])
  {
    var r := CreateResult(clients, invoices, requester, body, newId, now);
    if r.0 == CREATED {
      Store.InvoiceAppendValid(invoices, r.1.value);
    }
  }

  /** For an owned client, the decision is on the drafted document itself, which
      the totals hook leaves as it is. */
  lemma CreateDecision(clients: seq<ClientModel.Client>, invoices: seq<Invoice>, requester: Id,
                       body: InvoiceBody, newId: Id, now: int, k: nat)
    requires CreateValid(body) && OwnedClient(clients, requester, body.clientId.value) == Some(k)
    ensures var d := Drafted(clients[k], requester, body, newId, now);
      && TotalsHook(d) == d
      && CreateResult(clients, invoices, requester, body, newId, now)
         == if !SchemaOk(d) || IndexOf(invoices, NumberOf, d.invoiceNumber).Some? then (SERVER_ERROR, None)
            else (CREATED, Some(d))
  {
    var d := Drafted(clients[k], requester, body, newId, now);
    TotalsHookKeepsConsistent(d);
  }

  /** The handler: `Invoice.create` validates the new document and runs the save
      hooks, and the created invoice is appended to the table. */
  method CreateInvoice(db: Store.Database, requester: Id, body: InvoiceBody, newId: Id, now: int)
    returns (code: nat, created: Option<Invoice>)
    requires db.Valid() && CreateValid(body) && db.FreshInvoiceId(newId)
    modifies db
    ensures db.Valid()
    ensures db.users == old(db.users) && db.clients == old(db.clients) && db.expenses == old(db.expenses)
    ensures (code, created) == CreateResult(old(db.clients), old(db.invoices), requester, body, newId, now)
    ensures code == CREATED ==> db.invoices == old(db.invoices) + [created.value]
    ensures code != CREATED ==> db.invoices == old(db.invoices)
  {
    var k := OwnedClient(db.clients, requester, body.clientId.value);
    if k.None? {
      return NOT_FOUND, None;
    }
    var d := Drafted(db.clients[k.value], requester, body, newId, now);
    var saved := InvoiceModel.Create(d, now, CountWhere(db.invoices, OwnerOf, requester));
    CreateDecision(db.clients, db.invoices, requester, body, newId, now, k.value);
    if saved.None? || IndexOf(db.invoices, NumberOf, saved.value.invoiceNumber).Some? {
      return SERVER_ERROR, None;
    }
    var inv := saved.value;
    CreatedIsStorable(db.clients, db.invoices, requester, body, newId, now);
    db.SetInvoices(db.invoices + [inv]);
    code, created := CREATED, Some(inv);
  }

  // ---------------------------------------------------------------------------
  // Numbering before validation

  /** The invoice as it would be stored if the numbering hook ran before
      validation (registered as `pre('validate')`): the trimmed number sent, or the
      generated `INV-<now>-<count + 1>` when none is sent; everything else as
      `NewInvoice`. */
  function NumberedInvoice(c: ClientModel.Client, requester: Id, body: InvoiceBody, newId: Id, now: int, count: nat): (inv: Invoice)
    requires CreateValid(body)
    ensures inv == NewInvoice(c, requester, body, newId, now).(invoiceNumber := inv.invoiceNumber)
    ensures NumberText(body.invoiceNumber) != [] ==> inv == NewInvoice(c, requester, body, newId, now)
    ensures NumberText(body.invoiceNumber) == [] ==> inv.invoiceNumber == GeneratedNumber(now, count)
    ensures SchemaOk(inv) <==> c.name != [] && c.email != []
  {
    var inv := NewInvoice(c, requester, body, newId, now);
    var n := NumberHook(inv, true, now, count);
    assert SchemaOk(n) <==> SnapshotOk(n.clientSnapshot) by {
      assert n.items == inv.items && n.invoiceNumber != [];
      assert n.subtotal == inv.subtotal && n.tax == inv.tax && n.total == inv.total;
    }
    n
  }

  /** POST /api/invoices with numbering before validation: a blank or absent
      number is given the generated one, so for a client within its schema only a
      number that is already taken is a 500. */
  function CreateResultNumbered(clients: seq<ClientModel.Client>, invoices: seq<Invoice>, requester: Id,
                                body: InvoiceBody, newId: Id, now: int): (r: (nat, Option<Invoice>))
    requires CreateValid(body)
    ensures r.0 in {CREATED, NOT_FOUND, SERVER_ERROR}
    ensures r.0 != CREATED ==> r.1.None?
    ensures r.0 == NOT_FOUND <==> OwnedClient(clients, requester, body.clientId.value).None?
    ensures r.0 != NOT_FOUND ==>
      var c := clients[OwnedClient(clients, requester, body.clientId.value).value];
      var inv := NumberedInvoice(c, requester, body, newId, now, CountWhere(invoices, OwnerOf, requester));
      && (r.0 == SERVER_ERROR <==> !SchemaOk(inv) || IndexOf(invoices, NumberOf, inv.invoiceNumber).Some?)
      && (ClientModel.SchemaOk(c) ==> (r.0 == SERVER_ERROR <==> IndexOf(invoices, NumberOf, inv.invoiceNumber).Some?))
      && (r.0 == CREATED ==> r.1 == Some(inv))
  {
    match OwnedClient(clients, requester, body.clientId.value)
    case None => (NOT_FOUND, None)
    case Some(k) =>
      var inv := NumberedInvoice(clients[k], requester, body, newId, now, CountWhere(invoices, OwnerOf, requester));
      if !SchemaOk(inv) || IndexOf(invoices, NumberOf, inv.invoiceNumber).Some? then (SERVER_ERROR, None)
      else (CREATED, Some(inv))
  }

  /** The two orders agree whenever a number is sent. */
  lemma NumberedAgreesWhenSent(clients: seq<ClientModel.Client>, invoices: seq<Invoice>, requester: Id,
                               body: InvoiceBody, newId: Id, now: int)
    requires CreateValid(body) && NumberText(body.invoiceNumber) != []
    ensures CreateResultNumbered(clients, invoices, requester, body, newId, now)
         == CreateResult(clients, invoices, requester, body, newId, now)
  {
    match OwnedClient(clients, requester, body.clientId.value)
    case None =>
    case Some(k) =>
      var count := CountWhere(invoices, OwnerOf, requester);
      assert NumberedInvoice(clients[k], requester, body, newId, now, count)
          == NewInvoice(clients[k], requester, body, newId, now);
  }

  /** A body without a number, for an owned client within its schema whose
      generated number is free: as written the create answers 500 and stores
      nothing, while with numbering before validation it answers 201 with the
      generated number. */
  lemma BlankNumberIsServerError(clients: seq<ClientModel.Client>, invoices: seq<Invoice>, requester: Id,
                                 body: InvoiceBody, newId: Id, now: int)
    requires CreateValid(body) && NumberText(body.invoiceNumber) == []
    requires OwnedClient(clients, requester, body.clientId.value).Some?
    requires ClientModel.SchemaOk(clients[OwnedClient(clients, requester, body.clientId.value).value])
    requires IndexOf(invoices, NumberOf, GeneratedNumber(now, CountWhere(invoices, OwnerOf, requester))).None?
    ensures CreateResult(clients, invoices, requester, body, newId, now) == (SERVER_ERROR, None)
    ensures var r := CreateResultNumbered(clients, invoices, requester, body, newId, now);
      r.0 == CREATED && r.1.value.invoiceNumber == GeneratedNumber(now, CountWhere(invoices, OwnerOf, requester))
  {
  }

  // ---------------------------------------------------------------------------
  // updateInvoice

  /** An item the update can store: `items` replaces the stored array, so each sent
      item must have every field the item schema requires, within its bounds. */
  predicate Storable(it: ItemBody) {
    && it.description.Some? && !IsBlank(it.description.value)
    && FloatAtLeast(it.quantity, 1.0) && FloatAtLeast(it.rate, 0.0) && FloatAtLeast(it.amount, 0.0)
  }

  /** An item as the update stores it: the amount that was sent, not quantity × rate. */
  function Stored(it: ItemBody): (r: Item)
    requires Storable(it)
    ensures ItemOk(r)
    ensures r.quantity == it.quantity.value && r.rate == it.rate.value && r.amount == it.amount.value
  {
    Item(Trim(it.description.value), it.quantity.value, it.rate.value, it.amount.value)
  }

  /** The stored items, or None when the update validators of the item schema reject
      one of them. */
  function StoredItems(items: seq<ItemBody>): (r: Option<seq<Item>>)
    ensures r.Some? <==> forall i :: 0 <= i < |items| ==> Storable(items[i])
    ensures r.Some? ==> |r.value| == |items|
    ensures r.Some? ==> forall i :: 0 <= i < |items| ==>
      ItemOk(r.value[i]) && r.value[i].amount == items[i].amount.value
      && r.value[i].quantity == items[i].quantity.value && r.value[i].rate == items[i].rate.value
  {
    if forall i :: 0 <= i < |items| ==> Storable(items[i]) then
      Some(seq(|items|, i requires 0 <= i < |items| => Stored(items[i])))
    else None
  }

  /** What `findByIdAndUpdate` with `runValidators` leaves in place of `inv`, or None
      when the item schema rejects the sent items (a 500). Sent items replace the
      stored ones and then subtotal is quantity × rate summed and total is subtotal
      plus tax; without items both stay as stored. Tax is always written, 0 when
      absent. Dates, notes and status change only when sent. No save hook runs. */
  function UpdatedInvoice(inv: Invoice, body: InvoiceBody): (r: Option<Invoice>)
    requires UpdateValid(body)
    ensures r.None? <==> body.items.Given? && StoredItems(body.items.value).None?
    ensures r.Some? ==> var u := r.value;
      && u.id == inv.id && u.user == inv.user && u.client == inv.client
      && u.invoiceNumber == inv.invoiceNumber && u.clientSnapshot == inv.clientSnapshot
      && u.paidDate == inv.paidDate && u.createdAt == inv.createdAt
      && u.tax == TaxOf(body.tax)
      && u.issueDate == (if body.issueDate.Given? then body.issueDate.value else inv.issueDate)
      && u.dueDate == (if body.dueDate.Given? then body.dueDate.value else inv.dueDate)
      && (body.notes.Some? ==> u.notes == Some(Trim(body.notes.value)))
      && (body.notes.None? ==> u.notes == inv.notes)
      && (body.status.Given? ==> Some(u.status) == ParseStatus(body.status.value))
      && (body.status.Missing? ==> u.status == inv.status)
    ensures r.Some? && body.items.Given? ==>
      && |r.value.items| == |body.items.value|
      && r.value.subtotal == Sum(r.value.items, LineValue)
      && r.value.total == r.value.subtotal + r.value.tax
    ensures r.Some? && body.items.Missing? ==>
      r.value.items == inv.items && r.value.subtotal == inv.subtotal && r.value.total == inv.total
    ensures r.Some? && SchemaOk(inv) ==> SchemaOk(r.value)
  {
    var u := Patched(inv, body);
    if body.items.Missing? then Some(u)
    else
      match StoredItems(body.items.value)
      case None => None
      case Some(items) =>
        ItemsSumNonNeg(items);
        var subtotal := Sum(items, LineValue);
        Some(WithItems(u, items, subtotal))
  }

  /** The `$set` of every sent field but the items: tax (0 when absent), dates, notes
      and status; items and totals stay as stored. */
  function Patched(inv: Invoice, body: InvoiceBody): (u: Invoice)
    requires OptionalFloatAtLeast(body.tax, 0.0)
    requires body.status.Missing? || StatusValid(body.status)
    ensures u.id == inv.id && u.user == inv.user && u.client == inv.client
    ensures u.invoiceNumber == inv.invoiceNumber && u.clientSnapshot == inv.clientSnapshot
    ensures u.paidDate == inv.paidDate && u.createdAt == inv.createdAt
    ensures u.items == inv.items && u.subtotal == inv.subtotal && u.total == inv.total
    ensures u.tax == TaxOf(body.tax)
    ensures u.issueDate == (if body.issueDate.Given? then body.issueDate.value else inv.issueDate)
    ensures u.dueDate == (if body.dueDate.Given? then body.dueDate.value else inv.dueDate)
    ensures body.notes.Some? ==> u.notes == Some(Trim(body.notes.value))
    ensures body.notes.None? ==> u.notes == inv.notes
    ensures body.status.Given? ==> Some(u.status) == ParseStatus(body.status.value)
    ensures body.status.Missing? ==> u.status == inv.status
    ensures SchemaOk(inv) ==> SchemaOk(u)
  {
    var tax := TaxOf(body.tax);
    var issue := if body.issueDate.Given? then body.issueDate.value else inv.issueDate;
    var due := if body.dueDate.Given? then body.dueDate.value else inv.dueDate;
    var notes := if body.notes.Some? then Some(Trim(body.notes.value)) else inv.notes;
    var status := if body.status.Given? then ParseStatus(body.status.value).value else inv.status;
    var u := inv.(tax := tax, issueDate := issue, dueDate := due, notes := notes, status := status);
    assert SchemaOk(inv) ==> SchemaOk(u) by {
      if SchemaOk(inv) {
        SchemaKeptBy(inv, u);
      }
    }
    u
  }

  /** `u` with the sent items and the totals recomputed from them. */
  function WithItems(u: Invoice, items: seq<Item>, subtotal: real): (r: Invoice)
    requires forall i :: 0 <= i < |items| ==> ItemOk(items[i])
    requires subtotal >= 0.0 && u.tax >= 0.0
    ensures r == u.(items := items, subtotal := subtotal, total := subtotal + u.tax)
    ensures SchemaOk(u) ==> SchemaOk(r)
  {
    u.(items := items, subtotal := subtotal, total := subtotal + u.tax)
  }

  /** The update keeps the stored total when no items are sent but still resets the
      tax to 0 when none is sent: an invoice with tax 5 whose status alone is
      updated ends with tax 0 and a total that is no longer subtotal + tax. */
  lemma StatusOnlyUpdateResetsTax()
    ensures var inv := StaleInvoice().(items := [Item("work", 2.0, 10.0, 20.0)], tax := 5.0, total := 25.0);
      var body := InvoiceBody(Missing, Missing, Missing, Missing, Missing, None, None, Given("paid"));
      var u := UpdatedInvoice(inv, body);
      && inv.total == inv.subtotal + inv.tax
      && u.Some? && u.value.tax == 0.0 && u.value.total == 25.0
      && u.value.total != u.value.subtotal + u.value.tax
  {
  }

  /** PUT /api/invoices/:id. The ownership guard (404, then 401), then the update. */
  method UpdateInvoice(db: Store.Database, requester: Id, id: Id, body: InvoiceBody)
    returns (code: nat, updated: Option<Invoice>)
    requires db.Valid() && UpdateValid(body)
    modifies db
    ensures db.Valid()
    ensures db.users == old(db.users) && db.clients == old(db.clients) && db.expenses == old(db.expenses)
    ensures var g := GuardCode(old(db.InvoiceOwner(id)), requester);
      g != OK ==> code == g && updated.None? && db.invoices == old(db.invoices)
    ensures GuardCode(old(db.InvoiceOwner(id)), requester) == OK ==>
      var k := old(db.FindInvoice(id)).value;
      var u := UpdatedInvoice(old(db.invoices)[k], body);
      && (u.None? ==> code == SERVER_ERROR && updated.None? && db.invoices == old(db.invoices))
      && (u.Some? ==> code == OK && updated == u && db.invoices == old(db.invoices)[k := u.value])
  {
    code := GuardCode(db.InvoiceOwner(id), requester);
    if code != OK {
      return code, None;
    }
    var k := db.FindInvoice(id).value;
    updated := UpdatedInvoice(db.invoices[k], body);
    if updated.None? {
      return SERVER_ERROR, None;
    }
    var u := updated.value;
    Store.InvoiceReplaceValid(db.invoices, k, u);
    db.SetInvoices(db.invoices[k := u]);
  }

  // ---------------------------------------------------------------------------
  // deleteInvoice

  /** DELETE /api/invoices/:id. The guard, then the invoice and nothing else goes. */
  method DeleteInvoice(db: Store.Database, requester: Id, id: Id) returns (code: nat)
    requires db.Valid()
    modifies db
    ensures db.Valid()
    ensures db.users == old(db.users) && db.clients == old(db.clients) && db.expenses == old(db.expenses)
    ensures code == GuardCode(old(db.InvoiceOwner(id)), requester)
    ensures code != OK ==> db.invoices == old(db.invoices)
    ensures code == OK ==> db.invoices == RemoveWhere(old(db.invoices), IdOf, id)
  {
    code := GuardCode(db.InvoiceOwner(id), requester);
    if code == OK {
      Store.InvoiceRemoveValid(db.invoices, id);
      db.SetInvoices(RemoveWhere(db.invoices, IdOf, id));
    }
  }

  /** Deleting removes exactly the invoice with that id: every other invoice stays. */
  lemma DeleteRemovesOnlyThatInvoice(invoices: seq<Invoice>, id: Id)
    ensures forall i :: 0 <= i < |RemoveWhere(invoices, IdOf, id)| ==> RemoveWhere(invoices, IdOf, id)[i].id != id
    ensures forall i :: 0 <= i < |invoices| && invoices[i].id != id ==> invoices[i] in RemoveWhere(invoices, IdOf, id)
  {
    RemoveWhereKeeps(invoices, IdOf, id);
  }

  // ---------------------------------------------------------------------------
  // updateInvoiceStatus

  /** The invoice after `invoice.status = status`, `paidDate = new Date()` for
      paid, and `save()`, which runs both hooks on a document that is not new: the
      number stays and the totals are recomputed from the stored amounts. */
  function StatusPatched(inv: Invoice, st: Status, now: int): (r: Invoice)
    ensures r == inv.(status := st, paidDate := r.paidDate, subtotal := r.subtotal, total := r.total)
    ensures r.status == st
    ensures st == Paid ==> r.paidDate == Some(now)
    ensures st != Paid ==> r.paidDate == inv.paidDate
    ensures inv.items != [] ==> r.subtotal == Sum(inv.items, Amount) && r.total == r.subtotal + r.tax
    ensures inv.items == [] ==> r.subtotal == inv.subtotal && r.total == inv.total
    ensures SchemaOk(inv) ==> SchemaOk(r)
  {
    var paid := if st == Paid then Some(now) else inv.paidDate;
    var doc := inv.(status := st, paidDate := paid);
    assert SchemaOk(inv) ==> SchemaOk(TotalsHook(doc)) by {
      if SchemaOk(inv) {
        TotalsHookSound(doc);
      }
    }
    TotalsHook(NumberHook(doc, false, now, 0))
  }

  /** PATCH /api/invoices/:id/status. The guard, then the status patch and save. */
  method UpdateInvoiceStatus(db: Store.Database, requester: Id, id: Id, st: Status, now: int)
    returns (code: nat, updated: Option<Invoice>)
    requires db.Valid()
    modifies db
    ensures db.Valid()
    ensures db.users == old(db.users) && db.clients == old(db.clients) && db.expenses == old(db.expenses)
    ensures code == GuardCode(old(db.InvoiceOwner(id)), requester)
    ensures code != OK ==> updated.None? && db.invoices == old(db.invoices)
    ensures code == OK ==>
      var k := old(db.FindInvoice(id)).value;
      var p := StatusPatched(old(db.invoices)[k], st, now);
      updated == Some(p) && db.invoices == old(db.invoices)[k := p]
  {
    code := GuardCode(db.InvoiceOwner(id), requester);
    if code != OK {
      return code, None;
    }
    var k := db.FindInvoice(id).value;
    var doc := new InvoiceDoc(db.invoices[k], false);
    doc.value := doc.value.(status := st);
    if st == Paid {
      doc.value := doc.value.(paidDate := Some(now));
    }
    doc.RunSaveHooks(now, 0);
    var p := doc.value;
    assert p == StatusPatched(db.invoices[k], st, now);
    Store.InvoiceReplaceValid(db.invoices, k, p);
    db.SetInvoices(db.invoices[k := p]);
    updated := Some(p);
  }

  // ---------------------------------------------------------------------------
  // getInvoice, getInvoices

  /** GET /api/invoices/:id. */
  method GetInvoice(db: Store.Database, requester: Id, id: Id) returns (code: nat, found: Option<Invoice>)
    ensures code == GuardCode(db.InvoiceOwner(id), requester)
    ensures code == OK <==> found.Some?
    ensures found.Some? ==> found.value in db.invoices && found.value.id == id && found.value.user == requester
  {
    code := GuardCode(db.InvoiceOwner(id), requester);
    if code == OK {
      found := Some(db.invoices[db.FindInvoice(id).value]);
    } else {
      found := None;
    }
  }

  /** The filter of getInvoices: the requester's invoices, of the given status unless
      it is empty or "all", and, when a search text is given, whose number matches it.
      `matches` stands for the case-insensitive regular-expression test. The
      `client.name` alternative never matches a stored invoice, whose `client` is an
      id, so only the number is searched. */
  function InvoiceQuery(requester: Id, status: string, search: string, matches: (string, string) -> bool): Invoice -> bool
  {
    (inv: Invoice) =>
      && inv.user == requester
      && (status == [] || status == "all" || StatusName(inv.status) == status)
      && (search == [] || matches(inv.invoiceNumber, search))
  }

  function CreatedAt(inv: Invoice): real { inv.createdAt as real }

  /** The body of a listing: `totalPages` is None where the JSON carries `null`
      (a limit of 0 makes the quotient Infinity or NaN). */
  datatype InvoicePage = InvoicePage(invoices: seq<Invoice>, totalPages: Option<int>, currentPage: int, total: nat)

  /** getInvoices for any integer page and limit: None when `(page - 1) * limit`
      is negative, which the database refuses (a 500). Otherwise the matching
      invoices newest first, the requested page of them when page and limit are
      at least 1 and every one of them when the limit is 0, with the number of
      matches and `Math.ceil(total / limit)`. */
  function ListInvoices(invoices: seq<Invoice>, requester: Id, page: int, limit: int, status: string,
                        search: string, matches: (string, string) -> bool): (r: Option<InvoicePage>)
    ensures r.None? <==> SkipOf(page, limit) < 0
    ensures var q := InvoiceQuery(requester, status, search, matches);
      r.Some? ==>
      && r.value.total == |Filter(invoices, q)|
      && (limit != 0 ==> |r.value.invoices| <= Bound(limit))
      && (forall i :: 0 <= i < |r.value.invoices| ==> q(r.value.invoices[i]) && r.value.invoices[i] in invoices)
      && SortedDesc(r.value.invoices, CreatedAt)
      && r.value.totalPages == PageCount(r.value.total, limit)
      && r.value.currentPage == page
    ensures var q := InvoiceQuery(requester, status, search, matches);
      page >= 1 && limit >= 1 ==>
      && r.Some? && r.value.invoices == SortedPage(invoices, q, CreatedAt, page, limit)
      && r.value.totalPages.Some? && PagesHold(r.value.totalPages.value, r.value.total, limit)
    ensures var q := InvoiceQuery(requester, status, search, matches);
      limit == 0 ==> r.Some? && r.value.invoices == SortDesc(Filter(invoices, q), CreatedAt)
  {
    var q := InvoiceQuery(requester, status, search, matches);
    var total := |Filter(invoices, q)|;
    match SortedWindow(invoices, q, CreatedAt, page, limit)
    case None => None
    case Some(w) => Some(InvoicePage(w, PageCount(total, limit), page, total))
  }

  /** Every matching invoice is on one of the pages 1 to totalPages. */
  lemma EveryMatchIsListed(invoices: seq<Invoice>, requester: Id, limit: int, status: string,
                           search: string, matches: (string, string) -> bool, inv: Invoice)
    requires limit >= 1
    requires inv in invoices && InvoiceQuery(requester, status, search, matches)(inv)
    ensures var first := ListInvoices(invoices, requester, 1, limit, status, search, matches);
      && first.Some? && first.value.totalPages.Some?
      && exists page: int ::
        && 1 <= page <= first.value.totalPages.value
        && ListInvoices(invoices, requester, page, limit, status, search, matches).Some?
        && inv in ListInvoices(invoices, requester, page, limit, status, search, matches).value.invoices
  {
    var q := InvoiceQuery(requester, status, search, matches);
    SortedPageCovers(invoices, q, CreatedAt, limit, inv);
    var page: nat :| 1 <= page <= TotalPages(|Filter(invoices, q)|, limit) && inv in SortedPage(invoices, q, CreatedAt, page, limit);
    assert ListInvoices(invoices, requester, page, limit, status, search, matches).value.invoices == SortedPage(invoices, q, CreatedAt, page, limit);
  }

  /** GET /api/invoices: 200 with the listing, or 500 when the query fails. */
  method GetInvoices(db: Store.Database, requester: Id, page: int, limit: int, status: string,
                     search: string, matches: (string, string) -> bool) returns (code: int, r: Option<InvoicePage>)
    ensures r == ListInvoices(db.invoices, requester, page, limit, status, search, matches)
    ensures code == (if r.Some? then OK else SERVER_ERROR)
  {
    r := ListInvoices(db.invoices, requester, page, limit, status, search, matches);
    code := if r.Some? then OK else SERVER_ERROR;
  }

  // ---------------------------------------------------------------------------
  // getInvoiceStats

  datatype InvoiceStats = InvoiceStats(stats: seq<Group<Status>>, totalInvoices: nat, totalAmount: real)

  function OwnedBy(requester: Id): Invoice -> bool {
    (inv: Invoice) => inv.user == requester
  }

  /** One row per status the requester's invoices have, with how many of them
      have it and their summed totals; the rows add up to the invoice count and to
      the total amount, which is 0 when there are no invoices. */
  function StatsOf(invoices: seq<Invoice>, requester: Id): (r: InvoiceStats)
    ensures GroupsOf(r.stats, Filter(invoices, OwnedBy(requester)), StatusOf, TotalOf)
    ensures r.totalInvoices == CountWhere(invoices, OwnerOf, requester)
    ensures r.totalAmount == SumWhere(invoices, OwnerOf, requester, TotalOf)
    ensures CountSum(r.stats) == r.totalInvoices
    ensures Sum(r.stats, GroupTotal) == r.totalAmount
    ensures r.totalInvoices == 0 ==> r.stats == [] && r.totalAmount == 0.0
  {
    var mine := Filter(invoices, OwnedBy(requester));
    FilterWhere(invoices, OwnedBy(requester), OwnerOf, requester, TotalOf);
    var groups := GroupAll(mine, StatusOf, TotalOf);
    GroupAllGroups(mine, StatusOf, TotalOf);
    var amount := if |mine| == 0 then 0.0 else Sum(mine, TotalOf);
    assert groups != [] ==> CountSum(groups) >= groups[0].count > 0;
    InvoiceStats(groups, |mine|, amount)
  }

  /** The stored `user` field, an ObjectId, against a `$match` value. */
  function UserMatches(v: QueryValue): Invoice -> bool {
    (inv: Invoice) => ObjectIdValue(inv.user) == v
  }

  /** getInvoiceStats as written: both pipelines `$match` the ObjectId field with
      the text `req.user.id`, which no stored invoice equals, while
      `countDocuments` casts the text and counts the requester's invoices. So the
      statistics have no rows and a total amount of 0 whatever is stored. */
  function StatsAsWritten(invoices: seq<Invoice>, requester: Id): (r: InvoiceStats)
    ensures r.stats == [] && r.totalAmount == 0.0
    ensures r.totalInvoices == CountWhere(invoices, OwnerOf, requester)
  {
    var sent := TextValue(requester);
    var piped := Filter(invoices, UserMatches(sent));
    var counted := Filter(invoices, UserMatches(CastToObjectId(sent)));
    FilterNone(invoices, UserMatches(sent));
    FilterWhere(invoices, UserMatches(CastToObjectId(sent)), OwnerOf, requester, TotalOf);
    InvoiceStats(GroupAll(piped, StatusOf, TotalOf), |counted|, if piped == [] then 0.0 else Sum(piped, TotalOf))
  }

  /** One stored invoice: as written the statistics count it but show no row and
      no amount; matched on the cast id, its status row and its total appear. */
  lemma StatsAsWrittenShowNothing(inv: Invoice)
    requires inv.total > 0.0
    ensures StatsAsWritten([inv], inv.user).totalInvoices == 1
    ensures StatsAsWritten([inv], inv.user).stats == [] && StatsAsWritten([inv], inv.user).totalAmount == 0.0
    ensures StatsOf([inv], inv.user).stats == [Group(inv.status, 1, inv.total)]
    ensures StatsOf([inv], inv.user).totalAmount == inv.total
  {
    var r := StatsOf([inv], inv.user);
    assert Filter([inv], OwnedBy(inv.user)) == [inv];
    assert CountWhere([inv], OwnerOf, inv.user) == 1;
    assert |r.stats| == 1 by {
      assert r.stats != [];
      if |r.stats| > 1 {
        assert r.stats[0].count > 0 && r.stats[1].count > 0;
        assert CountSum(r.stats) >= r.stats[0].count + r.stats[1].count;
      }
    }
  }

  /** GET /api/invoices/stats. */
  method GetInvoiceStats(db: Store.Database, requester: Id) returns (r: InvoiceStats)
    ensures r == StatsOf(db.invoices, requester)
  {
    r := StatsOf(db.invoices, requester);
  }

  // ---------------------------------------------------------------------------
  // Route pipelines: validation chain, `handleValidationErrors`, handler

  /** POST /: a body the chain rejects is answered 400 and nothing changes; any
      other goes to the handler. */
  method PostInvoice(db: Store.Database, requester: Id, body: InvoiceBody, newId: Id, now: int)
    returns (code: nat, created: Option<Invoice>)
    requires db.Valid() && db.FreshInvoiceId(newId)
    modifies db
    ensures db.Valid()
    ensures !CreateValid(body) ==> code == BAD_REQUEST && created.None? && unchanged(db)
    ensures CreateValid(body) ==>
      && db.users == old(db.users) && db.clients == old(db.clients) && db.expenses == old(db.expenses)
      && (code, created) == CreateResult(old(db.clients), old(db.invoices), requester, body, newId, now)
      && db.invoices == if code == CREATED then old(db.invoices) + [created.value] else old(db.invoices)
  {
    if !CreateValid(body) {
      return BAD_REQUEST, None;
    }
    code, created := CreateInvoice(db, requester, body, newId, now);
  }

  /** PUT /:id: 400 for a body the chain rejects; otherwise the guard and the
      update. */
  method PutInvoice(db: Store.Database, requester: Id, id: Id, body: InvoiceBody)
    returns (code: nat, updated: Option<Invoice>)
    requires db.Valid()
    modifies db
    ensures db.Valid()
    ensures !UpdateValid(body) ==> code == BAD_REQUEST && updated.None? && unchanged(db)
    ensures code == OK ==> UpdateValid(body) && old(db.InvoiceOwner(id)) == Some(requester)
    ensures UpdateValid(body) ==>
      && db.users == old(db.users) && db.clients == old(db.clients) && db.expenses == old(db.expenses)
      && var g := GuardCode(old(db.InvoiceOwner(id)), requester);
      && (g != OK ==> code == g && updated.None? && db.invoices == old(db.invoices))
      && (g == OK ==>
        var k := old(db.FindInvoice(id)).value;
        var u := UpdatedInvoice(old(db.invoices)[k], body);
        && (u.None? ==> code == SERVER_ERROR && updated.None? && db.invoices == old(db.invoices))
        && (u.Some? ==> code == OK && updated == u && db.invoices == old(db.invoices)[k := u.value]))
  {
    if !UpdateValid(body) {
      return BAD_REQUEST, None;
    }
    code, updated := UpdateInvoice(db, requester, id, body);
  }

  /** PATCH /:id/status: the status must be one of the four names. */
  method PatchInvoiceStatus(db: Store.Database, requester: Id, id: Id, status: Field<string>, now: int)
    returns (code: nat, updated: Option<Invoice>)
    requires db.Valid()
    modifies db
    ensures db.Valid()
    ensures !StatusValid(status) ==> code == BAD_REQUEST && updated.None? && unchanged(db)
    ensures StatusValid(status) && code == OK ==>
      updated.Some? && Some(updated.value.status) == ParseStatus(status.value)
    ensures StatusValid(status) ==>
      && db.users == old(db.users) && db.clients == old(db.clients) && db.expenses == old(db.expenses)
      && code == GuardCode(old(db.InvoiceOwner(id)), requester)
      && (code != OK ==> updated.None? && db.invoices == old(db.invoices))
      && (code == OK ==>
        var k := old(db.FindInvoice(id)).value;
        var p := StatusPatched(old(db.invoices)[k], ParseStatus(status.value).value, now);
        updated == Some(p) && db.invoices == old(db.invoices)[k := p])
  {
    if !StatusValid(status) {
      return BAD_REQUEST, None;
    }
    code, updated := UpdateInvoiceStatus(db, requester, id, ParseStatus(status.value).value, now);
  }
}

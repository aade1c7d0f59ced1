/** client/src/components/invoice/InvoiceForm.tsx: the form's `formData` state and
    the handlers that replace it, the submit and new-client checks, the totals it
    shows, and how what it submits fares against the server's invoice rules. */
module InvoiceForm {
  import opened Common
  import opened Folds
  import opened UiTypes
  import AuthUtils
  import InvoiceRoutes
  import InvoiceModel
  import InvoiceController
  import ClientModel
  import ClientRoutes

  /** The `formData` record. Dates are day numbers; the form holds them as
      'YYYY-MM-DD' text. */
  datatype FormData = FormData(
    clientId: string, clientName: string, invoiceNumber: string,
    issueDate: int, dueDate: int, items: seq<InvoiceItem>,
    tax: real, notes: string, status: string)

  /** A row whose amount is its quantity times its rate. */
  predicate Priced(it: InvoiceItem) {
    it.amount == it.quantity * it.rate
  }

  predicate AllPriced(items: seq<InvoiceItem>) {
    forall i :: 0 <= i < |items| ==> Priced(items[i])
  }

  /** The row a new form starts with and `addItem` appends. */
  function BlankItem(id: string): InvoiceItem {
    InvoiceItem(id, [], 1.0, 0.0, 0.0)
  }

  // ---------------------------------------------------------------------------
  // Editing rows

  /** The field `handleItemChange` is called with, and its new value (quantity and
      rate arrive as `parseFloat(value) || 0`). */
  datatype ItemEdit = Description(text: string) | Quantity(quantity: real) | Rate(rate: real)

  /** `{ ...item, [field]: value }`, with the amount recomputed from quantity and
      rate when one of those two changed. */
  function Edited(it: InvoiceItem, e: ItemEdit): (r: InvoiceItem)
    ensures r.id == it.id
    ensures e.Description? ==> r.description == e.text && r.quantity == it.quantity && r.rate == it.rate && r.amount == it.amount
    ensures !e.Description? ==> r.description == it.description && Priced(r)
    ensures e.Quantity? ==> r.quantity == e.quantity && r.rate == it.rate
    ensures e.Rate? ==> r.rate == e.rate && r.quantity == it.quantity
    ensures Priced(it) ==> Priced(r)
  {
    match e
    case Description(t) => it.(description := t)
    case Quantity(q) => it.(quantity := q, amount := q * it.rate)
    case Rate(rt) => it.(rate := rt, amount := it.quantity * rt)
  }

  /** `items.map((item, i) => i === index ? edited : item)`: an index outside the
      list matches no row. */
  function EditedAt(items: seq<InvoiceItem>, index: int, e: ItemEdit): (r: seq<InvoiceItem>)
    ensures |r| == |items|
    ensures forall i :: 0 <= i < |items| && i != index ==> r[i] == items[i]
    ensures 0 <= index < |items| ==> r[index] == Edited(items[index], e)
    ensures AllPriced(items) ==> AllPriced(r)
  {
    seq(|items|, i requires 0 <= i < |items| => if i == index then Edited(items[i], e) else items[i])
  }

  /** `filter((_, i) => i !== index)`. */
  function RemovedAt<T>(s: seq<T>, index: int): (r: seq<T>)
    ensures 0 <= index < |s| ==> |r| == |s| - 1
    ensures 0 <= index < |s| ==> forall i :: 0 <= i < index ==> r[i] == s[i]
    ensures 0 <= index < |s| ==> forall i :: index <= i < |r| ==> r[i] == s[i + 1]
    ensures !(0 <= index < |s|) ==> r == s
    ensures multiset(r) <= multiset(s)
  {
    if 0 <= index < |s| then
      assert s == s[..index] + [s[index]] + s[index + 1..];
      s[..index] + s[index + 1..]
    else s
  }

  /** The `<option>` value of a client: `client.id || client._id`. */
  function OptionValue(c: Client): JsId {
    if c.id.Str? && c.id.text != [] then c.id else c.mongoId
  }

  /** `clients.find(c => (c.id || c._id) === value)?.name || ''`. */
  function SelectedName(clients: seq<Client>, value: string): (r: string)
    ensures (forall k :: 0 <= k < |clients| ==> OptionValue(clients[k]) != Str(value)) ==> r == []
    ensures forall k ::
      (&& 0 <= k < |clients| && OptionValue(clients[k]) == Str(value)
       && (forall j :: 0 <= j < k ==> OptionValue(clients[j]) != Str(value))) ==> r == clients[k].fields.name
  {
    match IndexOf(clients, OptionValue, Str(value))
    case None => []
    case Some(k) => clients[k].fields.name
  }

  // ---------------------------------------------------------------------------
  // The component's state

  class InvoiceFormState {
    var formData: FormData

    /** The row list is never empty. */
    ghost predicate Valid()
      reads this
    {
      |formData.items| >= 1
    }

    /** The new-invoice branch of the initial state: number `INV-<now>`, due 30
        days after issue, one blank row, no tax, draft. */
    constructor (now: nat, today: int, itemId: string)
      ensures Valid() && AllPriced(formData.items)
      ensures formData == FormData([], [], "INV-" + NatToString(now), today, today + 30,
                                   [BlankItem(itemId)], 0.0, [], "draft")
    {
      formData := FormData([], [], "INV-" + NatToString(now), today, today + 30,
                           [BlankItem(itemId)], 0.0, [], "draft");
    }

    /** The client `<select>`: the id as chosen, the name of the first client with
        that option value or nothing. */
    method SelectClient(value: string, clients: seq<Client>)
      requires Valid()
      modifies this
      ensures Valid()
      ensures formData == old(formData).(clientId := value, clientName := SelectedName(clients, value))
    {
      formData := formData.(clientId := value, clientName := SelectedName(clients, value));
    }

    /** `handleItemChange`: only the row at `index` changes; nothing else in the
        form does, and rows keep their pricing. */
    method ChangeItem(index: int, e: ItemEdit)
      requires Valid()
      modifies this
      ensures Valid()
      ensures formData == old(formData).(items := EditedAt(old(formData).items, index, e))
      ensures AllPriced(old(formData).items) ==> AllPriced(formData.items)
    {
      formData := formData.(items := EditedAt(formData.items, index, e));
    }

    /** `addItem`: one blank row more at the end. */
    method AddItem(id: string)
      requires Valid()
      modifies this
      ensures Valid() && |formData.items| == |old(formData).items| + 1
      ensures formData == old(formData).(items := old(formData).items + [BlankItem(id)])
      ensures AllPriced(old(formData).items) ==> AllPriced(formData.items)
    {
      formData := formData.(items := formData.items + [BlankItem(id)]);
    }

    /** `removeItem`: only when more than one row exists, so the list never empties. */
    method RemoveItem(index: int)
      requires Valid()
      modifies this
      ensures Valid()
      ensures |old(formData).items| > 1 ==> formData == old(formData).(items := RemovedAt(old(formData).items, index))
      ensures |old(formData).items| == 1 ==> formData == old(formData)
      ensures AllPriced(old(formData).items) ==> AllPriced(formData.items)
    {
      if |formData.items| > 1 {
        var r := RemovedAt(formData.items, index);
        assert forall i :: 0 <= i < |r| ==> r[i] in formData.items by {
          forall i | 0 <= i < |r| ensures r[i] in formData.items {
            assert r[i] in multiset(r);
          }
        }
        formData := formData.(items := r);
      }
    }
  }

  // ---------------------------------------------------------------------------
  // Totals shown under the rows

  datatype Totals = Totals(subtotal: real, taxAmount: real, total: real)

  function ItemAmount(it: InvoiceItem): real { it.amount }
  function ItemLine(it: InvoiceItem): real { it.quantity * it.rate }

  /** `tax` is read as a percentage of the subtotal. */
  function FormTotals(items: seq<InvoiceItem>, tax: real): (t: Totals)
    ensures t.subtotal == Sum(items, ItemAmount)
    ensures t.total == t.subtotal * (100.0 + tax) / 100.0
    ensures tax == 0.0 ==> t.total == t.subtotal
    ensures t.subtotal >= 0.0 && tax >= 0.0 ==> t.total >= t.subtotal
    ensures AllPriced(items) ==> t.subtotal == Sum(items, ItemLine)
  {
    var subtotal := Sum(items, ItemAmount);
    var taxAmount := subtotal * tax / 100.0;
    assert subtotal >= 0.0 && tax >= 0.0 ==> taxAmount >= 0.0;
    assert AllPriced(items) ==> subtotal == Sum(items, ItemLine) by {
      if AllPriced(items) {
        SumPointwise(items, ItemAmount, items, ItemLine);
      }
    }
    Totals(subtotal, taxAmount, subtotal + taxAmount)
  }

  // ---------------------------------------------------------------------------
  // Submitting

  datatype SubmitCheck = InvalidClient | InvalidItems | Ready

  /** `item.description && item.quantity > 0 && item.rate >= 0`. */
  predicate ItemAccepted(it: InvoiceItem) {
    it.description != [] && it.quantity > 0.0 && it.rate >= 0.0
  }

  /** The client id must be 24 hexadecimal characters; then there must be a row and
      every row must be accepted. */
  function CheckSubmit(f: FormData): (r: SubmitCheck)
    ensures r == InvalidClient <==> !IsObjectIdText(f.clientId)
    ensures r == Ready <==>
      IsObjectIdText(f.clientId) && |f.items| > 0 && forall i :: 0 <= i < |f.items| ==> ItemAccepted(f.items[i])
  {
    if !IsObjectIdText(f.clientId) then InvalidClient
    else if |f.items| == 0 || exists i :: 0 <= i < |f.items| && !ItemAccepted(f.items[i]) then InvalidItems
    else Ready
  }

  /** One row as the submitted `items` carry it: description, quantity, rate and
      amount; the row id stays behind. */
  function SubmittedItem(it: InvoiceItem): InvoiceRoutes.ItemBody {
    InvoiceRoutes.ItemBody(Some(it.description), Given(it.quantity), Given(it.rate), Given(it.amount))
  }

  /** The `invoice` object the form posts; an empty status is sent as draft. */
  function Submitted(f: FormData): (b: InvoiceRoutes.InvoiceBody)
    ensures b.items.Given? && |b.items.value| == |f.items|
    ensures forall i :: 0 <= i < |f.items| ==> b.items.value[i] == SubmittedItem(f.items[i])
    ensures b.clientId == Given(f.clientId) && b.tax == Given(f.tax)
    ensures b.issueDate == Given(f.issueDate) && b.dueDate == Given(f.dueDate)
  {
    var items := seq(|f.items|, i requires 0 <= i < |f.items| => SubmittedItem(f.items[i]));
    InvoiceRoutes.InvoiceBody(
      Given(f.clientId), Given(items), Given(f.issueDate), Given(f.dueDate), Given(f.tax),
      Some(f.notes), Some(f.invoiceNumber), Given(if f.status == [] then "draft" else f.status))
  }

  /** The server's create chain accepts a submitted form exactly when the form's own
      check passes and, beyond it, every quantity is at least 1, every description
      has more than white space, and the tax is not negative. So every form the
      server accepts, the form lets through. */
  lemma {:induction false} ServerAcceptsExactly(f: FormData)
    ensures InvoiceRoutes.CreateValid(Submitted(f)) <==>
      && CheckSubmit(f) == Ready
      && (forall i :: 0 <= i < |f.items| ==> f.items[i].quantity >= 1.0 && !IsBlank(f.items[i].description))
      && f.tax >= 0.0
  {
    var b := Submitted(f);
    forall i | 0 <= i < |f.items|
      ensures InvoiceRoutes.ItemValid(b.items.value[i]) <==>
        ItemAccepted(f.items[i]) && f.items[i].quantity >= 1.0 && !IsBlank(f.items[i].description)
    {
      var d := f.items[i].description;
      assert b.items.value[i] == SubmittedItem(f.items[i]);
      assert !IsBlank(d) ==> d != [] by {
        if d == [] {
          assert Trim(d) == [];
        }
      }
    }
  }

  /** A row with quantity 0.5 passes the form's check and fails the server's. */
  lemma FormAcceptsFractionalQuantity(clientId: string)
    requires IsObjectIdText(clientId)
    ensures var f := FormData(clientId, [], "INV-1", 0, 30, [InvoiceItem("1", "Design", 0.5, 100.0, 50.0)], 0.0, [], "draft");
      CheckSubmit(f) == Ready && !InvoiceRoutes.CreateValid(Submitted(f))
  {
    var f := FormData(clientId, [], "INV-1", 0, 30, [InvoiceItem("1", "Design", 0.5, 100.0, 50.0)], 0.0, [], "draft");
    assert !InvoiceRoutes.ItemValid(Submitted(f).items.value[0]);
  }

  /** The server stores `tax` as an amount added to the subtotal, while the form
      shows it as a percentage: for a form the server accepts, the stored subtotal is
      the one shown, and the stored total equals the shown total only when the tax is
      0 or the subtotal is exactly 100 (a subtotal of 200 with tax 10 shows 220 and
      stores 210). */
  lemma {:induction false} ServerReadsTaxAsAmount(f: FormData, c: ClientModel.Client, requester: Id, newId: Id, now: int)
    requires InvoiceRoutes.CreateValid(Submitted(f)) && AllPriced(f.items)
    ensures var inv := InvoiceController.NewInvoice(c, requester, Submitted(f), newId, now);
      var shown := FormTotals(f.items, f.tax);
      && inv.subtotal == shown.subtotal
      && inv.total == shown.subtotal + f.tax
      && (inv.total == shown.total <==> f.tax == 0.0 || shown.subtotal == 100.0)
  {
    var b := Submitted(f);
    var inv := InvoiceController.NewInvoice(c, requester, b, newId, now);
    var shown := FormTotals(f.items, f.tax);
    forall i | 0 <= i < |inv.items|
      ensures inv.items[i].quantity == f.items[i].quantity && inv.items[i].rate == f.items[i].rate
    {
      assert b.items.value[i] == SubmittedItem(f.items[i]);
    }
    StoredLinesMatchForm(f.items, inv.items);
    assert inv.subtotal == shown.subtotal;
    assert inv.total == shown.subtotal + f.tax;
    ShownTotalIsPercent(f.items, f.tax, inv.total);
  }

  /** Lines priced at the form rows' quantities and rates add up to the form's line
      values. */
  lemma StoredLinesMatchForm(rows: seq<InvoiceItem>, stored: seq<InvoiceModel.Item>)
    requires |stored| == |rows|
    requires forall i :: 0 <= i < |stored| ==> stored[i].quantity == rows[i].quantity && stored[i].rate == rows[i].rate
    ensures Sum(stored, InvoiceModel.LineValue) == Sum(rows, ItemLine)
  {
    SumPointwise(stored, InvoiceModel.LineValue, rows, ItemLine);
  }

  /** The shown total against a total computed as subtotal plus tax. */
  lemma ShownTotalIsPercent(items: seq<InvoiceItem>, tax: real, amount: real)
    requires amount == FormTotals(items, tax).subtotal + tax
    ensures FormTotals(items, tax).total == amount <==> tax == 0.0 || FormTotals(items, tax).subtotal == 100.0
  {
    var shown := FormTotals(items, tax);
    PercentEqualsAmount(shown.subtotal, tax, shown.total, amount);
  }

  /** `s + s * t / 100 == s + t` exactly when t is 0 or s is 100. */
  lemma PercentEqualsAmount(s: real, t: real, percent: real, amount: real)
    requires percent == s * (100.0 + t) / 100.0 && amount == s + t
    ensures percent == amount <==> t == 0.0 || s == 100.0
  {
    assert s * (100.0 + t) / 100.0 - (s + t) == t * (s - 100.0) / 100.0;
  }

  // ---------------------------------------------------------------------------
  // Adding a client from the form

  datatype NewClientCheck = NameRequired | EmailRequired | EmailInvalid | Accepted

  /** A name with more than white space, then an e-mail with more than white space,
      then the e-mail pattern (the same one `validateEmail` uses). */
  function CheckNewClient(name: string, email: string): (r: NewClientCheck)
    ensures r == NameRequired <==> IsBlank(name)
    ensures r == Accepted <==> !IsBlank(name) && AuthUtils.ValidEmail(email)
    ensures r == EmailRequired ==> !AuthUtils.ValidEmail(email)
  {
    if IsBlank(name) then NameRequired
    else if IsBlank(email) then
      BlankIsNoEmail(email);
      EmailRequired
    else if !AuthUtils.ValidEmail(email) then EmailInvalid
    else Accepted
  }

  /** Text that trims to nothing holds no '@', so it never matches the pattern. */
  lemma BlankIsNoEmail(email: string)
    requires IsBlank(email)
    ensures !AuthUtils.ValidEmail(email)
  {
    forall k | 0 <= k < |email| ensures email[k] != '@' {
      assert IsSpace(email[k]);
    }
  }

  /** The form lets a one-letter client name through; the server's create chain
      wants at least two characters after trimming. */
  lemma FormAcceptsOneLetterName(email: string, phone: string, address: string, isEmail: string -> bool)
    requires AuthUtils.ValidEmail(email)
    ensures CheckNewClient("A", email) == Accepted
    ensures !ClientRoutes.CreateValid(ClientRoutes.ClientBody(Some("A"), Some(email), Some(phone), Some(address), None, None), isEmail)
  {
    assert |Trim("A")| <= 1;
    assert !AllSpace("A") by {
      assert !IsSpace("A"[0]);
    }
  }
}

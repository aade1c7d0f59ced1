/** The invoice document of server/models/Invoice.js: its line items, the copy of the
    client's contact details taken at creation, the schema constraints Mongoose
    checks on save, and the two pre-save hooks (numbering and totals), which assign
    fields of the document being saved. */
module InvoiceModel {
  import opened Common
  import opened Folds

  datatype Item = Item(description: string, quantity: real, rate: real, amount: real)

  /** `clientSnapshot`: the client's contact fields as they were when the invoice was made. */
  datatype Snapshot = Snapshot(
    name: string, email: string, phone: string, address: string,
    company: Option<string>, taxId: Option<string>)

  datatype Invoice = Invoice(
    id: Id,
    user: Id,
    client: Id,
    invoiceNumber: string,
    issueDate: int,
    dueDate: int,
    items: seq<Item>,
    subtotal: real,
    tax: real,
    total: real,
    status: Status,
    notes: Option<string>,
    paidDate: Option<int>,
    clientSnapshot: Snapshot,
    createdAt: int)

  function IdOf(inv: Invoice): Id { inv.id }
  function OwnerOf(inv: Invoice): Id { inv.user }
  function NumberOf(inv: Invoice): string { inv.invoiceNumber }
  function TotalOf(inv: Invoice): real { inv.total }
  function StatusOf(inv: Invoice): Status { inv.status }

  function Amount(it: Item): real { it.amount }

  /** What a line is worth by its own quantity and rate. */
  function LineValue(it: Item): real { it.quantity * it.rate }

  // ---------------------------------------------------------------------------
  // Schema constraints

  /** An item needs a description (required, after trimming, so not empty), a
      quantity of at least 1 and a rate and amount that are not negative. */
  predicate ItemOk(it: Item) {
    it.description != [] && it.quantity >= 1.0 && it.rate >= 0.0 && it.amount >= 0.0
  }

  predicate SnapshotOk(s: Snapshot) {
    s.name != [] && s.email != []
  }

  /** What Mongoose validates before an invoice document is written. */
  predicate SchemaOk(inv: Invoice) {
    && (forall i :: 0 <= i < |inv.items| ==> ItemOk(inv.items[i]))
    && inv.invoiceNumber != []
    && inv.subtotal >= 0.0 && inv.tax >= 0.0 && inv.total >= 0.0
    && SnapshotOk(inv.clientSnapshot)
  }

  /** The schema looks only at the items, the number, the amounts and the client's
      details, so a change that keeps those and a non-negative tax keeps it. */
  lemma SchemaKeptBy(a: Invoice, b: Invoice)
    requires SchemaOk(a) && b.tax >= 0.0
    requires b.items == a.items && b.invoiceNumber == a.invoiceNumber && b.clientSnapshot == a.clientSnapshot
    requires b.subtotal == a.subtotal && b.total == a.total
    ensures SchemaOk(b)
  {
  }

  /** Lines that satisfy the schema are worth a non-negative amount in total. */
  lemma ItemsSumNonNeg(items: seq<Item>)
    requires forall i :: 0 <= i < |items| ==> ItemOk(items[i])
    ensures Sum(items, Amount) >= 0.0
    ensures Sum(items, LineValue) >= 0.0
  {
    SumNonNeg(items, Amount);
    forall i | 0 <= i < |items| ensures LineValue(items[i]) >= 0.0 {
      assert items[i].quantity >= 0.0 && items[i].rate >= 0.0;
    }
    SumNonNeg(items, LineValue);
  }

  // ---------------------------------------------------------------------------
  // Pre-save hooks

  /** `INV-<now>-<count + 1>`. */
  function GeneratedNumber(now: int, count: nat): (n: string)
    ensures |n| >= 7 && n[..4] == "INV-"
    ensures !IsBlank(n)
  {
    var n := "INV-" + IntToString(now) + "-" + NatToString(count + 1);
    assert n[0] == 'I';
    n
  }

  /** A generated number reads back as the prefix, the time it was generated at
      and the owner's count plus one, separated by dashes. */
  lemma GeneratedNumberReadsBack(now: int, count: nat)
    ensures var n := GeneratedNumber(now, count);
      exists k :: 4 < k < |n| && n[..4] == "INV-" && n[k] == '-'
        && IsNumeral(n[4..k]) && SignedValue(n[4..k]) == now
        && AllDigits(n[k + 1..]) && DigitsValue(n[k + 1..]) == count + 1
  {
    var a := IntToString(now);
    var b := NatToString(count + 1);
    var n := GeneratedNumber(now, count);
    var k := 4 + |a|;
    JoinedParts("INV-", a, b);
    assert n[4..k] == a && n[k + 1..] == b && n[k] == '-' && n[..4] == "INV-";
  }

  lemma JoinedParts(p: string, a: string, b: string)
    ensures var n := p + a + "-" + b;
      && n[..|p|] == p && n[|p|..|p| + |a|] == a
      && n[|p| + |a|] == '-' && n[|p| + |a| + 1..] == b
  {
    var n := p + a + "-" + b;
    assert n == p + (a + ("-" + b));
  }

  /** The numbering hook: a new document whose number is empty (the schema trims it
      first) is given a generated one; every other document keeps its number.
      `count` is the number of invoices the owner already has. Being a `pre('save')`
      hook, it runs after validation, which has already rejected an empty number
      (see `Create`). */
  function NumberHook(inv: Invoice, isNew: bool, now: int, count: nat): (r: Invoice)
    ensures r == inv.(invoiceNumber := r.invoiceNumber)
    ensures isNew && inv.invoiceNumber == [] ==> r.invoiceNumber == GeneratedNumber(now, count)
    ensures !(isNew && inv.invoiceNumber == []) ==> r == inv
    ensures r.invoiceNumber != []
         <==> inv.invoiceNumber != [] || isNew
  {
    if isNew && inv.invoiceNumber == [] then inv.(invoiceNumber := GeneratedNumber(now, count)) else inv
  }

  /** The totals hook: with at least one item, subtotal becomes the sum of the
      stored line amounts and total becomes subtotal plus tax; with no items both
      stay as they were. Nothing else changes. */
  function TotalsHook(inv: Invoice): (r: Invoice)
    ensures r == inv.(subtotal := r.subtotal, total := r.total)
    ensures inv.items != [] ==> r.subtotal == Sum(inv.items, Amount) && r.total == r.subtotal + inv.tax
    ensures inv.items == [] ==> r == inv
  {
    if |inv.items| > 0 then
      var sub := Sum(inv.items, Amount);
      inv.(subtotal := sub, total := sub + inv.tax)
    else inv
  }

  /** After the totals hook, an invoice whose items and tax satisfy the schema has
      non-negative totals and total = subtotal + tax whenever it has items. */
  lemma TotalsHookSound(inv: Invoice)
    requires forall i :: 0 <= i < |inv.items| ==> ItemOk(inv.items[i])
    requires inv.tax >= 0.0 && inv.subtotal >= 0.0 && inv.total >= 0.0
    ensures TotalsHook(inv).subtotal >= 0.0 && TotalsHook(inv).total >= 0.0
    ensures TotalsHook(TotalsHook(inv)) == TotalsHook(inv)
  {
    ItemsSumNonNeg(inv.items);
  }

  /** The totals hook leaves alone a document whose totals already agree with its
      lines and tax. */
  lemma TotalsHookKeepsConsistent(inv: Invoice)
    requires inv.subtotal == Sum(inv.items, Amount) && inv.total == inv.subtotal + inv.tax
    ensures TotalsHook(inv) == inv
  {
  }

  /** When every stored amount is quantity × rate (as createInvoice stores them),
      the totals hook computes the same subtotal as quantity × rate summed. */
  lemma HookAgreesWithLineValues(items: seq<Item>)
    requires forall i :: 0 <= i < |items| ==> items[i].amount == LineValue(items[i])
    ensures Sum(items, Amount) == Sum(items, LineValue)
  {
    SumPointwise(items, Amount, items, LineValue);
  }

  /** A document being saved: the hooks assign its fields in place. */
  class InvoiceDoc {
    var value: Invoice
    var isNew: bool

    constructor (inv: Invoice, isNew: bool)
      ensures value == inv && this.isNew == isNew
    {
      value := inv;
      this.isNew := isNew;
    }

    /** `pre('save')` numbering hook. */
    method AssignNumber(now: int, count: nat)
      modifies this
      ensures isNew == old(isNew)
      ensures value == NumberHook(old(value), old(isNew), now, count)
    {
      if isNew && value.invoiceNumber == [] {
        value := value.(invoiceNumber := GeneratedNumber(now, count));
      }
    }

    /** `pre('save')` totals hook. */
    method RecomputeTotals()
      modifies this
      ensures isNew == old(isNew)
      ensures value == TotalsHook(old(value))
    {
      if |value.items| > 0 {
        var sub := Sum(value.items, Amount);
        value := value.(subtotal := sub);
        value := value.(total := value.subtotal + value.tax);
      }
    }

    /** Both hooks in the order they are registered. */
    method RunSaveHooks(now: int, count: nat)
      modifies this
      ensures isNew == old(isNew)
      ensures value == TotalsHook(NumberHook(old(value), old(isNew), now, count))
    {
      AssignNumber(now, count);
      RecomputeTotals();
    }

    /** `save()`: the schema is validated first; a document that fails is left as
        it was, and only one that passes runs the hooks. */
    method Save(now: int, count: nat) returns (ok: bool)
      modifies this
      ensures isNew == old(isNew)
      ensures ok == SchemaOk(old(value))
      ensures ok ==> value == TotalsHook(NumberHook(old(value), old(isNew), now, count))
      ensures !ok ==> value == old(value)
    {
      ok := SchemaOk(value);
      if ok {
        RunSaveHooks(now, count);
      }
    }
  }

  /** `Invoice.create(data)`: Mongoose validates the document before the save
      hooks run, so a document that fails the schema (an empty number among
      others) makes the call throw, modelled as None, and nothing is stored. A
      document that passes already has a number, so the numbering hook leaves it
      and only the totals hook applies. */
  method Create(data: Invoice, now: int, count: nat) returns (saved: Option<Invoice>)
    ensures saved.None? <==> !SchemaOk(data)
    ensures saved.Some? ==> saved.value == TotalsHook(NumberHook(data, true, now, count))
    ensures saved.Some? ==> saved.value == TotalsHook(data) && SchemaOk(saved.value)
  {
    var doc := new InvoiceDoc(data, true);
    var ok := doc.Save(now, count);
    if !ok {
      return None;
    }
    TotalsHookSound(data);
    saved := Some(doc.value);
  }

  // ---------------------------------------------------------------------------
  // The stored amounts and quantity × rate can disagree

  /** An item whose stored amount is stale (2 × 10 stored as 5, as an update that
      sends items with old amounts leaves it). */
  function StaleInvoice(): Invoice {
    Invoice("i", "u", "c", "INV-1", 0, 0, [Item("work", 2.0, 10.0, 5.0)], 20.0, 0.0, 20.0,
            Sent, None, None, Snapshot("n", "e", "p", "a", None, None), 0)
  }

  /** Saving such an invoice (as the status patch does) replaces the subtotal that
      was computed from quantity × rate by the sum of the stored amounts. */
  lemma StaleAmountsChangeTotalsOnSave()
    ensures Sum(StaleInvoice().items, LineValue) == StaleInvoice().subtotal
    ensures TotalsHook(StaleInvoice()).subtotal == 5.0
    ensures TotalsHook(StaleInvoice()).total != StaleInvoice().total
  {
    var inv := StaleInvoice();
    assert inv.items[1..] == [];
    assert Sum(inv.items, Amount) == 5.0;
    assert Sum(inv.items, LineValue) == 20.0;
  }
}

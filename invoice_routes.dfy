/** server/routes/invoice.js: the shape of the request bodies, the three
    express-validator chains and the order in which the routes are registered. */
module InvoiceRoutes {
  import opened Common

  /** One element of `items` as sent. `description` is any scalar, read as text. */
  datatype ItemBody = ItemBody(
    description: Option<string>,
    quantity: Field<real>,
    rate: Field<real>,
    amount: Field<real>)

  /** `req.body` of the create, update and status requests. Dates are `Given` when
      the text is a valid ISO 8601 date and `Malformed` otherwise. */
  datatype InvoiceBody = InvoiceBody(
    clientId: Field<string>,
    items: Field<seq<ItemBody>>,
    issueDate: Field<int>,
    dueDate: Field<int>,
    tax: Field<real>,
    notes: Option<string>,
    invoiceNumber: Option<string>,
    status: Field<string>)

  /** `isFloat({ min })` on a field that must be present. */
  predicate FloatAtLeast(f: Field<real>, min: real) {
    f.Given? && f.value >= min
  }

  /** `.optional().isFloat({ min })`: absent, or a number of at least `min`. */
  predicate OptionalFloatAtLeast(f: Field<real>, min: real) {
    f.Missing? || FloatAtLeast(f, min)
  }

  /** `.trim().notEmpty()`. */
  predicate NonBlank(d: Option<string>) {
    d.Some? && !IsBlank(d.value)
  }

  /** `isIn(['draft', 'sent', 'paid', 'overdue'])`. */
  predicate StatusValid(f: Field<string>) {
    f.Given? && ParseStatus(f.value).Some?
  }

  /** `items.*`: a non-blank description, quantity at least 1, rate at least 0. */
  predicate ItemValid(it: ItemBody) {
    NonBlank(it.description) && FloatAtLeast(it.quantity, 1.0) && FloatAtLeast(it.rate, 0.0)
  }

  /** `items.*` with every rule `optional()`: each field absent or valid. */
  predicate ItemUpdateValid(it: ItemBody) {
    && (it.description.None? || NonBlank(it.description))
    && OptionalFloatAtLeast(it.quantity, 1.0)
    && OptionalFloatAtLeast(it.rate, 0.0)
  }

  /** `invoiceValidation`. */
  predicate CreateValid(b: InvoiceBody) {
    && b.clientId.Given? && IsObjectIdText(b.clientId.value)
    && b.items.Given? && |b.items.value| >= 1
    && (forall i :: 0 <= i < |b.items.value| ==> ItemValid(b.items.value[i]))
    && b.issueDate.Given? && b.dueDate.Given?
    && OptionalFloatAtLeast(b.tax, 0.0)
  }

  /** `updateInvoiceValidation`: every field optional, the same bounds when present. */
  predicate UpdateValid(b: InvoiceBody) {
    && (b.items.Missing? || (b.items.Given? && |b.items.value| >= 1
          && forall i :: 0 <= i < |b.items.value| ==> ItemUpdateValid(b.items.value[i])))
    && !b.issueDate.Malformed? && !b.dueDate.Malformed?
    && OptionalFloatAtLeast(b.tax, 0.0)
    && (b.status.Missing? || StatusValid(b.status))
  }

  /** A body that passes the create chain passes the update chain too. */
  lemma CreateValidIsUpdateValid(b: InvoiceBody)
    requires CreateValid(b) && !b.status.Malformed?
    requires b.status.Given? ==> ParseStatus(b.status.value).Some?
    ensures UpdateValid(b)
  {
  }

  /** The update chain lets through an item that has no quantity at all, which the
      create chain rejects. */
  lemma UpdateAcceptsItemWithoutQuantity()
    ensures var it := ItemBody(Some("work"), Missing, Given(5.0), Missing);
      ItemUpdateValid(it) && !ItemValid(it)
  {
  }

  // ---------------------------------------------------------------------------
  // Route table

  datatype Handler = GetInvoices | GetInvoiceStats | GetInvoice | CreateInvoice
                   | UpdateInvoice | DeleteInvoice | UpdateInvoiceStatus

  /** The routes in registration order. */
  const Routes: seq<Route<Handler>> := [
    Route(GET, [], GetInvoices),
    Route(GET, [Lit("stats")], GetInvoiceStats),
    Route(GET, [Param], GetInvoice),
    Route(POST, [], CreateInvoice),
    Route(PUT, [Param], UpdateInvoice),
    Route(DELETE, [Param], DeleteInvoice),
    Route(PATCH, [Param, Lit("status")], UpdateInvoiceStatus)]

  /** `GET /stats` reaches the statistics handler, never `getInvoice` with id
      "stats"; every other single-segment GET reaches `getInvoice`. */
  lemma StatsBeforeId(id: string)
    ensures HandlerFor(Routes, GET, ["stats"]) == Some(GetInvoiceStats)
    ensures id != "stats" ==> HandlerFor(Routes, GET, [id]) == Some(GetInvoice)
  {
    assert RouteMatches(Routes[1], GET, ["stats"]);
    assert !RouteMatches(Routes[0], GET, ["stats"]);
    if id != "stats" {
      assert !RouteMatches(Routes[0], GET, [id]);
      assert !SegmentsMatch(Routes[1].pattern, [id]) by {
        assert Routes[1].pattern[0] == Lit("stats") && [id][0] == id;
      }
      assert RouteMatches(Routes[2], GET, [id]);
    }
  }
}

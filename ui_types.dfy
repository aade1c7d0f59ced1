/** client/src/redux/types.ts: the records the browser keeps. Every record travels
    with the two id fields a server payload may carry: `id` and Mongo's `_id`. */
module UiTypes {
  import opened Common

  /** The JavaScript value of an id field: a string, or absent. */
  datatype JsId = Str(text: string) | Undefined

  /** A record with its `id` and `_id` fields and the rest of its fields. */
  datatype Rec<T> = Rec(id: JsId, mongoId: JsId, fields: T)

  function IdOf<T>(r: Rec<T>): JsId { r.id }

  datatype InvoiceItem = InvoiceItem(id: string, description: string, quantity: real, rate: real, amount: real)

  /** Dates are timestamps; `createdAt` orders records. */
  datatype InvoiceFields = InvoiceFields(
    clientId: string, clientName: string, invoiceNumber: string,
    issueDate: int, dueDate: int, items: seq<InvoiceItem>,
    subtotal: real, tax: real, total: real, status: Status, createdAt: int)

  datatype ClientFields = ClientFields(name: string, email: string, phone: string, address: string, createdAt: int)

  datatype ExpenseFields = ExpenseFields(description: string, amount: real, category: string, date: int, createdAt: int)

  type Invoice = Rec<InvoiceFields>
  type Client = Rec<ClientFields>
  type Expense = Rec<ExpenseFields>

  function TotalOf(inv: Invoice): real { inv.fields.total }
  function StatusOf(inv: Invoice): Status { inv.fields.status }
  function AmountOf(e: Expense): real { e.fields.amount }
  function CategoryOf(e: Expense): string { e.fields.category }
  function DateOf(e: Expense): real { e.fields.date as real }

  /** How the monthly salary is split, in percent. */
  datatype Allocation = Allocation(needs: real, wants: real, savings: real)

  const DefaultAllocation := Allocation(50.0, 30.0, 20.0)
}

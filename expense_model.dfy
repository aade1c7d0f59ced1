/** The expense document of server/models/Expense.js: amount, description and notes
    bounds, and the category and payment-method enumerations. */
module ExpenseModel {
  import opened Common

  /** The twelve categories, in the order the schema lists them. */
  const Categories: seq<string> := [
    "Food & Dining", "Transportation", "Shopping", "Entertainment", "Healthcare",
    "Education", "Housing", "Utilities", "Insurance", "Travel", "Business", "Other"]

  /** The six payment methods. */
  const PaymentMethods: seq<string> := [
    "Cash", "Credit Card", "Debit Card", "Bank Transfer", "Digital Wallet", "Other"]

  /** The request body as it was sent, kept verbatim as `detailsSnapshot`. */
  datatype ExpenseBody = ExpenseBody(
    description: Field<string>,
    amount: Field<real>,
    category: Field<string>,
    date: Field<int>,
    paymentMethod: Field<string>,
    receipt: Option<string>,
    notes: Field<string>)

  datatype Expense = Expense(
    id: Id,
    user: Id,
    description: string,
    amount: real,
    category: string,
    date: int,
    paymentMethod: Option<string>,
    receipt: Option<string>,
    notes: Option<string>,
    detailsSnapshot: Option<ExpenseBody>,
    createdAt: int)

  function IdOf(e: Expense): Id { e.id }
  function OwnerOf(e: Expense): Id { e.user }
  function AmountOf(e: Expense): real { e.amount }
  function CategoryOf(e: Expense): string { e.category }
  function DateOf(e: Expense): real { e.date as real }

  /** Description required (so not empty after trimming) and at most 200 characters;
      amount not negative; category one of the twelve; payment method, when present,
      one of the six; notes at most 500 characters. */
  predicate SchemaOk(e: Expense) {
    && e.description != [] && |e.description| <= 200
    && e.amount >= 0.0
    && e.category in Categories
    && (e.paymentMethod.Some? ==> e.paymentMethod.value in PaymentMethods)
    && (e.notes.Some? ==> |e.notes.value| <= 500)
  }
}

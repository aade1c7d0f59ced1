/** The MongoDB collections the controllers read and write, as one in-memory
    database: a table per collection, each record carrying its owner's id. Record
    ids come from the caller (MongoDB makes them); `now` is passed in likewise. */
module Store {
  import opened Common
  import opened Folds
  import InvoiceModel
  import ClientModel
  import ExpenseModel

  /** A user account. The password is kept as the text that `matchPassword` compares
      against (bcrypt hashing is not modelled); the salary is unset until the first
      salary update. */
  datatype User = User(id: Id, name: string, email: string, password: string, monthlySalary: Option<real>)

  function UserId(u: User): Id { u.id }
  function UserEmail(u: User): string { u.email }

  predicate UsersValid(users: seq<User>) {
    UniqueBy(users, UserId)
  }

  /** Ids unique, at most one client per (user, email), every client within its schema. */
  predicate ClientsValid(clients: seq<ClientModel.Client>) {
    && UniqueBy(clients, ClientModel.IdOf)
    && ClientModel.EmailsUnique(clients)
    && (forall i :: 0 <= i < |clients| ==> ClientModel.SchemaOk(clients[i]))
  }

  /** Ids and invoice numbers unique, every invoice within its schema. */
  predicate InvoicesValid(invoices: seq<InvoiceModel.Invoice>) {
    && UniqueBy(invoices, InvoiceModel.IdOf)
    && UniqueBy(invoices, InvoiceModel.NumberOf)
    && (forall i :: 0 <= i < |invoices| ==> InvoiceModel.SchemaOk(invoices[i]))
  }

  predicate ExpensesValid(expenses: seq<ExpenseModel.Expense>) {
    && UniqueBy(expenses, ExpenseModel.IdOf)
    && (forall i :: 0 <= i < |expenses| ==> ExpenseModel.SchemaOk(expenses[i]))
  }

  /** Appending an invoice with a new id and a new number that satisfies the schema
      keeps the table valid. */
  lemma InvoiceAppendValid(s: seq<InvoiceModel.Invoice>, inv: InvoiceModel.Invoice)
    requires InvoicesValid(s) && InvoiceModel.SchemaOk(inv)
    requires IndexOf(s, InvoiceModel.IdOf, inv.id).None?
    requires IndexOf(s, InvoiceModel.NumberOf, inv.invoiceNumber).None?
    ensures InvoicesValid(s + [inv])
  {
    AppendUnique(s, inv, InvoiceModel.IdOf);
    AppendUnique(s, inv, InvoiceModel.NumberOf);
  }

  /** Replacing an invoice by one with the same id and number that satisfies the
      schema keeps the table valid. */
  lemma InvoiceReplaceValid(s: seq<InvoiceModel.Invoice>, k: nat, inv: InvoiceModel.Invoice)
    requires InvoicesValid(s) && k < |s| && InvoiceModel.SchemaOk(inv)
    requires inv.id == s[k].id && inv.invoiceNumber == s[k].invoiceNumber
    ensures InvoicesValid(s[k := inv])
  {
    ReplaceUnique(s, k, inv, InvoiceModel.IdOf);
    ReplaceUnique(s, k, inv, InvoiceModel.NumberOf);
  }

  lemma InvoiceRemoveValid(s: seq<InvoiceModel.Invoice>, id: Id)
    requires InvoicesValid(s)
    ensures InvoicesValid(RemoveWhere(s, InvoiceModel.IdOf, id))
  {
    RemoveWhereUnique(s, InvoiceModel.IdOf, id, InvoiceModel.IdOf);
    RemoveWhereUnique(s, InvoiceModel.IdOf, id, InvoiceModel.NumberOf);
    var r := RemoveWhere(s, InvoiceModel.IdOf, id);
    forall i | 0 <= i < |r| ensures InvoiceModel.SchemaOk(r[i]) {
      assert r[i] in s;
    }
  }

  lemma ClientAppendValid(s: seq<ClientModel.Client>, c: ClientModel.Client)
    requires ClientsValid(s) && ClientModel.SchemaOk(c)
    requires IndexOf(s, ClientModel.IdOf, c.id).None?
    requires IndexOf(s, ClientModel.UserEmail, ClientModel.UserEmail(c)).None?
    ensures ClientsValid(s + [c])
  {
    AppendUnique(s, c, ClientModel.IdOf);
    AppendUnique(s, c, ClientModel.UserEmail);
  }

  lemma ClientReplaceValid(s: seq<ClientModel.Client>, k: nat, c: ClientModel.Client)
    requires ClientsValid(s) && k < |s| && ClientModel.SchemaOk(c) && c.id == s[k].id
    requires forall j :: 0 <= j < |s| && j != k ==> ClientModel.UserEmail(s[j]) != ClientModel.UserEmail(c)
    ensures ClientsValid(s[k := c])
  {
    ReplaceUnique(s, k, c, ClientModel.IdOf);
    ReplaceUnique(s, k, c, ClientModel.UserEmail);
  }

  lemma ClientRemoveValid(s: seq<ClientModel.Client>, id: Id)
    requires ClientsValid(s)
    ensures ClientsValid(RemoveWhere(s, ClientModel.IdOf, id))
  {
    RemoveWhereUnique(s, ClientModel.IdOf, id, ClientModel.IdOf);
    RemoveWhereUnique(s, ClientModel.IdOf, id, ClientModel.UserEmail);
    var r := RemoveWhere(s, ClientModel.IdOf, id);
    forall i | 0 <= i < |r| ensures ClientModel.SchemaOk(r[i]) {
      assert r[i] in s;
    }
  }

  lemma ExpenseAppendValid(s: seq<ExpenseModel.Expense>, e: ExpenseModel.Expense)
    requires ExpensesValid(s) && ExpenseModel.SchemaOk(e)
    requires IndexOf(s, ExpenseModel.IdOf, e.id).None?
    ensures ExpensesValid(s + [e])
  {
    AppendUnique(s, e, ExpenseModel.IdOf);
  }

  lemma ExpenseReplaceValid(s: seq<ExpenseModel.Expense>, k: nat, e: ExpenseModel.Expense)
    requires ExpensesValid(s) && k < |s| && ExpenseModel.SchemaOk(e) && e.id == s[k].id
    ensures ExpensesValid(s[k := e])
  {
    ReplaceUnique(s, k, e, ExpenseModel.IdOf);
  }

  lemma ExpenseRemoveValid(s: seq<ExpenseModel.Expense>, id: Id)
    requires ExpensesValid(s)
    ensures ExpensesValid(RemoveWhere(s, ExpenseModel.IdOf, id))
  {
    RemoveWhereUnique(s, ExpenseModel.IdOf, id, ExpenseModel.IdOf);
    var r := RemoveWhere(s, ExpenseModel.IdOf, id);
    forall i | 0 <= i < |r| ensures ExpenseModel.SchemaOk(r[i]) {
      assert r[i] in s;
    }
  }

  class Database {
    var users: seq<User>
    var clients: seq<ClientModel.Client>
    var invoices: seq<InvoiceModel.Invoice>
    var expenses: seq<ExpenseModel.Expense>

    /** Every table valid: ids unique in each, at most one client per (user,
        email), invoice numbers unique, and every stored document satisfies its
        schema. */
    ghost predicate Valid()
      reads this
    {
      UsersValid(users) && ClientsValid(clients) && InvoicesValid(invoices) && ExpensesValid(expenses)
    }

    constructor ()
      ensures Valid()
      ensures users == [] && clients == [] && invoices == [] && expenses == []
    {
      users, clients, invoices, expenses := [], [], [], [];
    }

    // `findById`: the position of the record with that id, if any.

    function FindInvoice(id: Id): (r: Option<nat>)
      reads this
      ensures r.Some? ==> r.value < |invoices| && invoices[r.value].id == id
      ensures r.None? <==> forall j :: 0 <= j < |invoices| ==> invoices[j].id != id
    {
      IndexOf(invoices, InvoiceModel.IdOf, id)
    }

    function FindClient(id: Id): (r: Option<nat>)
      reads this
      ensures r.Some? ==> r.value < |clients| && clients[r.value].id == id
      ensures r.None? <==> forall j :: 0 <= j < |clients| ==> clients[j].id != id
    {
      IndexOf(clients, ClientModel.IdOf, id)
    }

    function FindExpense(id: Id): (r: Option<nat>)
      reads this
      ensures r.Some? ==> r.value < |expenses| && expenses[r.value].id == id
      ensures r.None? <==> forall j :: 0 <= j < |expenses| ==> expenses[j].id != id
    {
      IndexOf(expenses, ExpenseModel.IdOf, id)
    }

    function FindUser(id: Id): (r: Option<nat>)
      reads this
      ensures r.Some? ==> r.value < |users| && users[r.value].id == id
      ensures r.None? <==> forall j :: 0 <= j < |users| ==> users[j].id != id
    {
      IndexOf(users, UserId, id)
    }

    /** `findOne({ email })` on the users. */
    function FindUserByEmail(email: string): (r: Option<nat>)
      reads this
      ensures r.Some? ==> r.value < |users| && users[r.value].email == email
      ensures r.None? <==> forall j :: 0 <= j < |users| ==> users[j].email != email
    {
      IndexOf(users, UserEmail, email)
    }

    /** The owner of the invoice with that id, if there is one. */
    function InvoiceOwner(id: Id): Option<Id>
      reads this
    {
      match FindInvoice(id)
      case None => None
      case Some(i) => Some(invoices[i].user)
    }

    function ClientOwner(id: Id): Option<Id>
      reads this
    {
      match FindClient(id)
      case None => None
      case Some(i) => Some(clients[i].user)
    }

    function ExpenseOwner(id: Id): Option<Id>
      reads this
    {
      match FindExpense(id)
      case None => None
      case Some(i) => Some(expenses[i].user)
    }

    /** Writes the users collection; the others stay as they are. */
    method SetUsers(s: seq<User>)
      requires Valid() && UsersValid(s)
      modifies this
      ensures Valid() && users == s
      ensures clients == old(clients) && invoices == old(invoices) && expenses == old(expenses)
    {
      users := s;
    }

    /** Writes the clients collection; the others stay as they are. */
    method SetClients(s: seq<ClientModel.Client>)
      requires Valid() && ClientsValid(s)
      modifies this
      ensures Valid() && clients == s
      ensures users == old(users) && invoices == old(invoices) && expenses == old(expenses)
    {
      clients := s;
    }

    /** Writes the invoices collection; the others stay as they are. */
    method SetInvoices(s: seq<InvoiceModel.Invoice>)
      requires Valid() && InvoicesValid(s)
      modifies this
      ensures Valid() && invoices == s
      ensures users == old(users) && clients == old(clients) && expenses == old(expenses)
    {
      invoices := s;
    }

    /** Writes the expenses collection; the others stay as they are. */
    method SetExpenses(s: seq<ExpenseModel.Expense>)
      requires Valid() && ExpensesValid(s)
      modifies this
      ensures Valid() && expenses == s
      ensures users == old(users) && clients == old(clients) && invoices == old(invoices)
    {
      expenses := s;
    }

    predicate FreshInvoiceId(id: Id) reads this { FindInvoice(id).None? }
    predicate FreshClientId(id: Id) reads this { FindClient(id).None? }
    predicate FreshExpenseId(id: Id) reads this { FindExpense(id).None? }
    predicate FreshUserId(id: Id) reads this { FindUser(id).None? }
  }
}

/** server/controllers/clientController.js: the six client handlers over the
    database, and the route pipelines of server/routes/client.js. */
module ClientController {
  import opened Common
  import opened Folds
  import opened ClientModel
  import opened ClientRoutes
  import Store

  // ---------------------------------------------------------------------------
  // createClient

  /** The client `Client.create` builds from a sanitized body, through the
      schema's `trim` and `lowercase` setters. Of the schema's rules only the email
      pattern can still fail on such a body. */
  function NewClient(requester: Id, b: ClientBody, newId: Id, now: int): (c: Client)
    requires CreateClean(b)
    ensures c.id == newId && c.user == requester && c.createdAt == now
    ensures c.email == ToLower(b.email.value)
    ensures c.name == Trim(b.name.value) && c.phone == Trim(b.phone.value) && c.address == Trim(b.address.value)
    ensures c.company == TrimOpt(b.company) && c.taxId == TrimOpt(b.taxId)
    ensures SchemaOk(c) <==> EmailPattern(ToLower(b.email.value))
  {
    ToLowerIdempotent(b.email.value);
    Cast(newId, requester, b.name.value, b.email.value, b.phone.value, b.address.value, b.company, b.taxId, now)
  }

  /** POST /api/clients. 400 when the requester already has a client with that
      (lower-cased) email; 500 when the schema rejects the new client; otherwise it
      is appended and answered with 201. */
  method CreateClient(db: Store.Database, requester: Id, b: ClientBody, newId: Id, now: int)
    returns (code: nat, created: Option<Client>)
    requires db.Valid() && CreateClean(b) && db.FreshClientId(newId)
    modifies db
    ensures db.Valid()
    ensures db.users == old(db.users) && db.invoices == old(db.invoices) && db.expenses == old(db.expenses)
    ensures code in {CREATED, BAD_REQUEST, SERVER_ERROR}
    ensures code != CREATED ==> db.clients == old(db.clients) && created.None?
    ensures code == BAD_REQUEST <==> IndexOf(old(db.clients), UserEmail, (requester, ToLower(b.email.value))).Some?
    ensures code != BAD_REQUEST ==>
      var c := NewClient(requester, b, newId, now);
      && (code == SERVER_ERROR <==> !SchemaOk(c))
      && (code == CREATED ==> created == Some(c) && db.clients == old(db.clients) + [c])
  {
    var email := ToLower(b.email.value);
    if IndexOf(db.clients, UserEmail, (requester, email)).Some? {
      return BAD_REQUEST, None;
    }
    var c := NewClient(requester, b, newId, now);
    if !SchemaOk(c) {
      return SERVER_ERROR, None;
    }
    Store.ClientAppendValid(db.clients, c);
    db.SetClients(db.clients + [c]);
    code, created := CREATED, Some(c);
  }

  /** The per-user uniqueness of emails survives every successful create. */
  lemma CreateKeepsEmailsUnique(clients: seq<Client>, c: Client)
    requires EmailsUnique(clients)
    requires IndexOf(clients, UserEmail, (c.user, c.email)).None?
    ensures EmailsUnique(clients + [c])
    ensures IndexOf(clients + [c], UserEmail, (c.user, c.email)) == Some(|clients|)
  {
    AppendUnique(clients, c, UserEmail);
    IndexOfUnique(clients + [c], UserEmail, (c.user, c.email), |clients|);
  }

  // ---------------------------------------------------------------------------
  // updateClient

  function SetTrimmed(f: Option<string>, old_: string): (r: string)
    ensures f.None? ==> r == old_
    ensures f.Some? ==> r == Trim(f.value)
  {
    if f.Some? then Trim(f.value) else old_
  }

  function SetOptional(f: Option<string>, old_: Option<string>): (r: Option<string>)
    ensures f.None? ==> r == old_
    ensures f.Some? ==> r == Some(Trim(f.value))
  {
    if f.Some? then Some(Trim(f.value)) else old_
  }

  /** `findByIdAndUpdate` with the sent fields: each sent field replaced through its
      setter, the others kept. For a stored client and a sanitized body the schema
      rejects the result only when a sent email does not match the pattern. */
  function UpdatedClient(c: Client, b: ClientBody): (r: Client)
    ensures r.id == c.id && r.user == c.user && r.createdAt == c.createdAt
    ensures r.email == (if b.email.Some? then ToLower(b.email.value) else c.email)
    ensures r.name == SetTrimmed(b.name, c.name) && r.phone == SetTrimmed(b.phone, c.phone)
    ensures r.address == SetTrimmed(b.address, c.address)
    ensures r.company == SetOptional(b.company, c.company) && r.taxId == SetOptional(b.taxId, c.taxId)
    ensures SchemaOk(c) && UpdateClean(b) ==>
      (SchemaOk(r) <==> b.email.None? || EmailPattern(ToLower(b.email.value)))
  {
    assert b.email.Some? ==> ToLower(ToLower(b.email.value)) == ToLower(b.email.value) by {
      if b.email.Some? { ToLowerIdempotent(b.email.value); }
    }
    c.(name := SetTrimmed(b.name, c.name),
       email := if b.email.Some? then ToLower(b.email.value) else c.email,
       phone := SetTrimmed(b.phone, c.phone),
       address := SetTrimmed(b.address, c.address),
       company := SetOptional(b.company, c.company),
       taxId := SetOptional(b.taxId, c.taxId))
  }

  /** `Client.findOne({ user, email: email.toLowerCase(), _id: { $ne: id } })`. */
  predicate EmailTaken(clients: seq<Client>, requester: Id, email: string, exceptId: Id) {
    exists j :: 0 <= j < |clients| && clients[j].user == requester && clients[j].email == email && clients[j].id != exceptId
  }

  /** The conflict check runs only when an email is sent, is not empty and differs
      from the stored one. */
  predicate EmailConflict(clients: seq<Client>, requester: Id, c: Client, b: ClientBody) {
    b.email.Some? && b.email.value != [] && b.email.value != c.email
    && EmailTaken(clients, requester, ToLower(b.email.value), c.id)
  }

  /** Without a conflict, and with the schema met, the edited client's (user, email)
      pair is still its own. */
  lemma UpdateKeepsEmailsDistinct(clients: seq<Client>, requester: Id, k: nat, b: ClientBody)
    requires Store.ClientsValid(clients) && k < |clients| && clients[k].user == requester
    requires !EmailConflict(clients, requester, clients[k], b)
    requires SchemaOk(UpdatedClient(clients[k], b))
    ensures forall j :: 0 <= j < |clients| && j != k ==>
      UserEmail(clients[j]) != UserEmail(UpdatedClient(clients[k], b))
  {
    var c := clients[k];
    var u := UpdatedClient(c, b);
    forall j | 0 <= j < |clients| && j != k ensures UserEmail(clients[j]) != UserEmail(u) {
      assert clients[j].id != c.id by {
        assert UniqueBy(clients, IdOf);
      }
      assert UserEmail(clients[j]) != UserEmail(c);
    }
  }

  /** PUT /api/clients/:id. The guard (404, then 401), the email conflict check
      (400), the schema (500), then the update. */
  method UpdateClient(db: Store.Database, requester: Id, id: Id, b: ClientBody)
    returns (code: nat, updated: Option<Client>)
    requires db.Valid() && UpdateClean(b)
    modifies db
    ensures db.Valid()
    ensures db.users == old(db.users) && db.invoices == old(db.invoices) && db.expenses == old(db.expenses)
    ensures code != OK ==> updated.None? && db.clients == old(db.clients)
    ensures var g := GuardCode(old(db.ClientOwner(id)), requester); g != OK ==> code == g
    ensures GuardCode(old(db.ClientOwner(id)), requester) == OK ==>
      var k := old(db.FindClient(id)).value;
      var c := old(db.clients)[k];
      var u := UpdatedClient(c, b);
      && (code == BAD_REQUEST <==> EmailConflict(old(db.clients), requester, c, b))
      && (code == SERVER_ERROR <==> !EmailConflict(old(db.clients), requester, c, b) && !SchemaOk(u))
      && (code == OK ==> updated == Some(u) && db.clients == old(db.clients)[k := u])
  {
    code := GuardCode(db.ClientOwner(id), requester);
    if code != OK {
      return code, None;
    }
    var k := db.FindClient(id).value;
    var c := db.clients[k];
    if EmailConflict(db.clients, requester, c, b) {
      return BAD_REQUEST, None;
    }
    var u := UpdatedClient(c, b);
    if !SchemaOk(u) {
      return SERVER_ERROR, None;
    }
    UpdateKeepsEmailsDistinct(db.clients, requester, k, b);
    Store.ClientReplaceValid(db.clients, k, u);
    db.SetClients(db.clients[k := u]);
    updated := Some(u);
  }

  // ---------------------------------------------------------------------------
  // deleteClient

  /** DELETE /api/clients/:id. Only the client goes: the invoices made out to it
      stay, still carrying its id and their snapshot of its details. */
  method DeleteClient(db: Store.Database, requester: Id, id: Id) returns (code: nat)
    requires db.Valid()
    modifies db
    ensures db.Valid()
    ensures db.users == old(db.users) && db.invoices == old(db.invoices) && db.expenses == old(db.expenses)
    ensures code == GuardCode(old(db.ClientOwner(id)), requester)
    ensures code != OK ==> db.clients == old(db.clients)
    ensures code == OK ==> db.clients == RemoveWhere(old(db.clients), IdOf, id)
  {
    code := GuardCode(db.ClientOwner(id), requester);
    if code == OK {
      Store.ClientRemoveValid(db.clients, id);
      db.SetClients(RemoveWhere(db.clients, IdOf, id));
    }
  }

  // ---------------------------------------------------------------------------
  // getClient, getClients, getClientStats

  /** GET /api/clients/:id. */
  method GetClient(db: Store.Database, requester: Id, id: Id) returns (code: nat, found: Option<Client>)
    ensures code == GuardCode(db.ClientOwner(id), requester)
    ensures code == OK <==> found.Some?
    ensures found.Some? ==> found.value in db.clients && found.value.id == id && found.value.user == requester
  {
    code := GuardCode(db.ClientOwner(id), requester);
    if code == OK {
      found := Some(db.clients[db.FindClient(id).value]);
    } else {
      found := None;
    }
  }

  /** The filter of getClients: the requester's clients and, when a search text is
      given, those whose name or email matches it (`matches` stands for the
      case-insensitive regular-expression test). */
  function ClientQuery(requester: Id, search: string, matches: (string, string) -> bool): Client -> bool {
    (c: Client) =>
      c.user == requester && (search == [] || matches(c.name, search) || matches(c.email, search))
  }

  function CreatedAt(c: Client): real { c.createdAt as real }

  /** The body of a listing; `totalPages` is None where the JSON carries `null`. */
  datatype ClientPage = ClientPage(clients: seq<Client>, totalPages: Option<int>, currentPage: int, total: nat)

  /** getClients for any integer page and limit: None when the skip is negative
      (a 500); otherwise the matching clients newest first, the requested page of
      them when page and limit are at least 1 and all of them for limit 0. */
  function ListClients(clients: seq<Client>, requester: Id, page: int, limit: int, search: string,
                       matches: (string, string) -> bool): (r: Option<ClientPage>)
    ensures r.None? <==> SkipOf(page, limit) < 0
    ensures var q := ClientQuery(requester, search, matches);
      r.Some? ==>
      && r.value.total == |Filter(clients, q)|
      && (limit != 0 ==> |r.value.clients| <= Bound(limit))
      && (forall i :: 0 <= i < |r.value.clients| ==> q(r.value.clients[i]) && r.value.clients[i] in clients)
      && SortedDesc(r.value.clients, CreatedAt)
      && r.value.totalPages == PageCount(r.value.total, limit)
      && r.value.currentPage == page
    ensures var q := ClientQuery(requester, search, matches);
      page >= 1 && limit >= 1 ==>
      && r.Some? && r.value.clients == SortedPage(clients, q, CreatedAt, page, limit)
      && r.value.totalPages.Some? && PagesHold(r.value.totalPages.value, r.value.total, limit)
    ensures var q := ClientQuery(requester, search, matches);
      limit == 0 ==> r.Some? && r.value.clients == SortDesc(Filter(clients, q), CreatedAt)
  {
    var q := ClientQuery(requester, search, matches);
    var total := |Filter(clients, q)|;
    match SortedWindow(clients, q, CreatedAt, page, limit)
    case None => None
    case Some(w) => Some(ClientPage(w, PageCount(total, limit), page, total))
  }

  /** Every matching client is on one of the pages 1 to totalPages. */
  lemma EveryMatchIsListed(clients: seq<Client>, requester: Id, limit: int, search: string,
                           matches: (string, string) -> bool, c: Client)
    requires limit >= 1
    requires c in clients && ClientQuery(requester, search, matches)(c)
    ensures var first := ListClients(clients, requester, 1, limit, search, matches);
      && first.Some? && first.value.totalPages.Some?
      && exists page: int ::
        && 1 <= page <= first.value.totalPages.value
        && ListClients(clients, requester, page, limit, search, matches).Some?
        && c in ListClients(clients, requester, page, limit, search, matches).value.clients
  {
    var q := ClientQuery(requester, search, matches);
    SortedPageCovers(clients, q, CreatedAt, limit, c);
    var page: nat :| 1 <= page <= TotalPages(|Filter(clients, q)|, limit) && c in SortedPage(clients, q, CreatedAt, page, limit);
    assert ListClients(clients, requester, page, limit, search, matches).value.clients == SortedPage(clients, q, CreatedAt, page, limit);
  }

  /** GET /api/clients: 200 with the listing, or 500 when the query fails. */
  method GetClients(db: Store.Database, requester: Id, page: int, limit: int, search: string,
                    matches: (string, string) -> bool) returns (code: int, r: Option<ClientPage>)
    ensures r == ListClients(db.clients, requester, page, limit, search, matches)
    ensures code == (if r.Some? then OK else SERVER_ERROR)
  {
    r := ListClients(db.clients, requester, page, limit, search, matches);
    code := if r.Some? then OK else SERVER_ERROR;
  }

  datatype ClientStats = ClientStats(totalClients: nat, recentClients: seq<Client>)

  function OwnedBy(requester: Id): Client -> bool {
    (c: Client) => c.user == requester
  }

  /** How many clients the requester has, and the first page of five of them
      newest first (all of them when there are fewer). */
  function StatsOf(clients: seq<Client>, requester: Id): (r: ClientStats)
    ensures r.totalClients == CountWhere(clients, OwnerOf, requester)
    ensures |r.recentClients| == if r.totalClients < 5 then r.totalClients else 5
    ensures forall i :: 0 <= i < |r.recentClients| ==> r.recentClients[i].user == requester && r.recentClients[i] in clients
    ensures SortedDesc(r.recentClients, CreatedAt)
    ensures r.recentClients == SortedPage(clients, OwnedBy(requester), CreatedAt, 1, 5)
  {
    FilterWhere(clients, OwnedBy(requester), OwnerOf, requester, CreatedAt);
    var recent := SortedPage(clients, OwnedBy(requester), CreatedAt, 1, 5);
    ClientStats(|Filter(clients, OwnedBy(requester))|, recent)
  }

  /** The recent clients are the newest: an owned client created after one of
      them is among them. */
  lemma RecentAreNewest(clients: seq<Client>, requester: Id, c: Client, i: nat)
    requires c in clients && c.user == requester
    requires i < |StatsOf(clients, requester).recentClients|
    requires c.createdAt > StatsOf(clients, requester).recentClients[i].createdAt
    ensures c in StatsOf(clients, requester).recentClients
  {
    FirstPageHoldsLargest(clients, OwnedBy(requester), CreatedAt, 5, c, i);
  }

  /** GET /api/clients/stats. */
  method GetClientStats(db: Store.Database, requester: Id) returns (r: ClientStats)
    ensures r == StatsOf(db.clients, requester)
  {
    r := StatsOf(db.clients, requester);
  }

  // ---------------------------------------------------------------------------
  // Route pipelines

  /** POST /: the chain rejects with 400; otherwise the handler sees the sanitized body. */
  method PostClient(db: Store.Database, requester: Id, b: ClientBody, isEmail: string -> bool,
                    normalize: string -> string, newId: Id, now: int)
    returns (code: nat, created: Option<Client>)
    requires db.Valid() && db.FreshClientId(newId)
    modifies db
    ensures db.Valid()
    ensures !CreateValid(b, isEmail) ==> code == BAD_REQUEST && created.None? && unchanged(db)
    ensures CreateValid(b, isEmail) ==> CreateClean(Sanitized(b, normalize))
    ensures CreateValid(b, isEmail) ==>
      && db.users == old(db.users) && db.invoices == old(db.invoices) && db.expenses == old(db.expenses)
      && code in {CREATED, BAD_REQUEST, SERVER_ERROR}
      && (code != CREATED ==> db.clients == old(db.clients) && created.None?)
      && (code == BAD_REQUEST <==> IndexOf(old(db.clients), UserEmail, (requester, ToLower(normalize(b.email.value)))).Some?)
      && (code != BAD_REQUEST ==>
        var c := NewClient(requester, Sanitized(b, normalize), newId, now);
        && c.email == ToLower(normalize(b.email.value))
        && (code == SERVER_ERROR <==> !SchemaOk(c))
        && (code == CREATED ==> created == Some(c) && db.clients == old(db.clients) + [c]))
  {
    if !CreateValid(b, isEmail) {
      return BAD_REQUEST, None;
    }
    SanitizedCreateIsClean(b, isEmail, normalize);
    code, created := CreateClient(db, requester, Sanitized(b, normalize), newId, now);
  }

  /** PUT /:id. */
  method PutClient(db: Store.Database, requester: Id, id: Id, b: ClientBody, isEmail: string -> bool,
                   normalize: string -> string)
    returns (code: nat, updated: Option<Client>)
    requires db.Valid()
    modifies db
    ensures db.Valid()
    ensures !UpdateValid(b, isEmail) ==> code == BAD_REQUEST && updated.None? && unchanged(db)
    ensures code == OK ==> UpdateValid(b, isEmail) && old(db.ClientOwner(id)) == Some(requester)
    ensures UpdateValid(b, isEmail) ==>
      && db.users == old(db.users) && db.invoices == old(db.invoices) && db.expenses == old(db.expenses)
      && (code != OK ==> updated.None? && db.clients == old(db.clients))
      && var g := GuardCode(old(db.ClientOwner(id)), requester);
      && (g != OK ==> code == g)
      && (g == OK ==>
        var k := old(db.FindClient(id)).value;
        var c := old(db.clients)[k];
        var sb := Sanitized(b, normalize);
        var u := UpdatedClient(c, sb);
        && (code == BAD_REQUEST <==> EmailConflict(old(db.clients), requester, c, sb))
        && (code == SERVER_ERROR <==> !EmailConflict(old(db.clients), requester, c, sb) && !SchemaOk(u))
        && (code == OK ==> updated == Some(u) && db.clients == old(db.clients)[k := u]))
  {
    if !UpdateValid(b, isEmail) {
      return BAD_REQUEST, None;
    }
    SanitizedUpdateIsClean(b, isEmail, normalize);
    code, updated := UpdateClient(db, requester, id, Sanitized(b, normalize));
  }
}

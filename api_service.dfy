/** client/src/services/api.ts: the browser's one `ApiService`, which keeps the
    bearer token (mirrored in the browser's storage), builds the request headers
    and the query strings of the list endpoints, and turns an HTTP answer into
    the reply the slices' thunks see. */
module ApiService {
  import opened Common
  import opened UiTypes
  import opened SliceOps
  import InvoiceSlice

  // ---------------------------------------------------------------------------
  // Headers and answers

  datatype Header = Header(name: string, value: string)

  const JsonContent := Header("Content-Type", "application/json")

  /** `if (this.token)`: a token is used only when it is set and not empty. */
  predicate Truthy(token: Option<string>) {
    token.Some? && token.value != []
  }

  /** What `fetch` gives back: a network failure, or an answer with its HTTP
      status class (`response.ok`) and its JSON body. */
  datatype Response<T> =
    | NetworkError(message: string)
    | Http(ok: bool, success: bool, message: string, data: Option<T>)

  /** `request`: a failure status is thrown with the body's message or
      "Something went wrong", a network failure is rethrown, and any other answer
      is handed back as it came, whatever its `success` says. */
  function Requested<T>(resp: Response<T>): (r: Reply<T>)
    ensures r.Thrown? <==> resp.NetworkError? || !resp.ok
    ensures resp.Http? && !resp.ok ==> r.message == OrElse(resp.message, "Something went wrong") && r.message != []
    ensures r.Answered? ==> resp == Http(true, r.success, r.message, r.data)
  {
    match resp
    case NetworkError(m) => Thrown(m)
    case Http(ok, success, m, data) =>
      if ok then Answered(success, m, data) else Thrown(OrElse(m, "Something went wrong"))
  }

  /** A failure status never reaches a fulfilled case: the create, update and
      delete thunks all reject, and with the server's message when it sent one. */
  lemma FailureStatusRejects<T>(resp: Response<T>, id: string)
    requires resp.Http? && !resp.ok
    ensures UnCheckedOutcome(Requested(resp)).Rejected?
    ensures DeleteOutcome(Requested(resp), id).Rejected?
    ensures InvoiceSlice.CreateOutcome(Requested(resp), "Failed").Rejected?
    ensures resp.message != [] ==> InvoiceSlice.CreateOutcome(Requested(resp), "Failed") == Rejected(resp.message)
  {
  }

  // ---------------------------------------------------------------------------
  // The token

  class Service {
    var token: Option<string>
    /** The `token` entry of the browser's storage. */
    var persisted: Option<string>

    /** The field and the stored entry move together. */
    ghost predicate Valid()
      reads this
    {
      token == persisted
    }

    /** `new ApiService(url)`: the token is read back from storage. */
    constructor (saved: Option<string>)
      ensures Valid() && token == saved
    {
      token, persisted := saved, saved;
    }

    /** `getHeaders`: JSON content always, and a bearer header exactly when a
        token is set. */
    method Headers() returns (h: seq<Header>)
      ensures |h| >= 1 && h[0] == JsonContent
      ensures (exists k :: 0 <= k < |h| && h[k].name == "Authorization") <==> Truthy(token)
      ensures Truthy(token) ==> h == [JsonContent, Header("Authorization", "Bearer " + token.value)]
      ensures !Truthy(token) ==> h == [JsonContent]
    {
      h := [JsonContent];
      if token.Some? && token.value != [] {
        h := h + [Header("Authorization", "Bearer " + token.value)];
        assert h[1].name == "Authorization";
      } else {
        assert JsonContent.name != "Authorization";
      }
    }

    method SetToken(t: string)
      modifies this
      ensures Valid() && token == Some(t)
    {
      token := Some(t);
      persisted := Some(t);
    }

    method GetToken() returns (t: Option<string>)
      ensures t == token
    {
      t := token;
    }

    method RemoveToken()
      modifies this
      ensures Valid() && token.None?
    {
      token := None;
      persisted := None;
    }

    /** `!!this.token`. */
    method IsAuthenticated() returns (b: bool)
      ensures b <==> Truthy(token)
    {
      b := token.Some? && token.value != [];
    }

    /** What `register` and `login` do with their answer: the token is stored only
        when the answer says success and carries a non-empty one (`data?.token`);
        otherwise the previous token stays. */
    method AuthAnswered(success: bool, dataToken: Option<string>)
      requires Valid()
      modifies this
      ensures Valid()
      ensures success && Truthy(dataToken) ==> token == dataToken
      ensures !(success && Truthy(dataToken)) ==> token == old(token)
    {
      if success && dataToken.Some? && dataToken.value != [] {
        SetToken(dataToken.value);
      }
    }
  }

  /** A sign-in answered with a non-empty token authenticates the service, whatever
      was stored before, and sends the bearer header; `removeToken` then ends both. */
  method SignInThenOut(saved: Option<string>, t: string) returns (signedIn: bool, h: seq<Header>, signedOut: bool)
    requires t != []
    ensures signedIn && !signedOut
    ensures h == [JsonContent, Header("Authorization", "Bearer " + t)]
  {
    var api := new Service(saved);
    api.AuthAnswered(true, Some(t));
    signedIn := api.IsAuthenticated();
    h := api.Headers();
    api.RemoveToken();
    signedOut := api.IsAuthenticated();
  }

  /** An answer without success, or with an empty token, leaves a signed-out
      service signed out. */
  method FailedSignInStaysOut(success: bool, dataToken: Option<string>) returns (signedIn: bool)
    requires !success || !Truthy(dataToken)
    ensures !signedIn
  {
    var api := new Service(None);
    api.AuthAnswered(success, dataToken);
    signedIn := api.IsAuthenticated();
  }

  // ---------------------------------------------------------------------------
  // Query strings

  datatype QueryParam = QueryParam(key: string, value: string)

  /** A candidate query field: its name and, when it is truthy, its text. */
  datatype QueryField = QueryField(key: string, text: Option<string>)

  /** A numeric parameter is sent when it is present and not 0. */
  function NumberText(n: Option<int>): (r: Option<string>)
    ensures r.Some? <==> n.Some? && n.value != 0
    ensures r.Some? ==> r.value == IntToString(n.value) && r.value != []
  {
    if n.Some? && n.value != 0 then Some(IntToString(n.value)) else None
  }

  /** A text parameter is sent when it is present and not empty. */
  function Text(s: Option<string>): (r: Option<string>)
    ensures r.Some? <==> s.Some? && s.value != []
    ensures r.Some? ==> r == s
  {
    if s.Some? && s.value != [] then s else None
  }

  /** The `append` calls that run, in the order the fields are tested. */
  function Appended(fields: seq<QueryField>): (r: seq<QueryParam>)
    ensures |r| <= |fields|
    ensures r == [] <==> forall i :: 0 <= i < |fields| ==> fields[i].text.None?
  {
    if fields == [] then []
    else
      var rest := Appended(fields[1..]);
      assert forall i :: 1 <= i < |fields| ==> fields[i] == fields[1..][i - 1];
      if fields[0].text.Some? then [QueryParam(fields[0].key, fields[0].text.value)] + rest else rest
  }

  /** Every truthy field is sent, under its own name and with its own text. */
  lemma {:induction false} AppendedSendsTruthy(fields: seq<QueryField>)
    ensures forall i :: 0 <= i < |fields| && fields[i].text.Some? ==>
      QueryParam(fields[i].key, fields[i].text.value) in Appended(fields)
  {
    if fields != [] {
      AppendedSendsTruthy(fields[1..]);
      forall i | 1 <= i < |fields| ensures fields[i] == fields[1..][i - 1] { }
    }
  }

  /** Nothing else is sent. */
  lemma {:induction false} AppendedOnlyTruthy(fields: seq<QueryField>)
    ensures forall p :: p in Appended(fields) ==> QueryField(p.key, Some(p.value)) in fields
  {
    if fields != [] {
      AppendedOnlyTruthy(fields[1..]);
      assert forall f :: f in fields[1..] ==> f in fields;
    }
  }

  /** Where field `k` stands among the fields (their number when it is absent). */
  function Rank(fields: seq<QueryField>, k: string): (n: nat)
    ensures n <= |fields|
    ensures n < |fields| ==> fields[n].key == k
  {
    if fields == [] then 0
    else if fields[0].key == k then 0
    else 1 + Rank(fields[1..], k)
  }

  predicate KeysDistinct(fields: seq<QueryField>) {
    forall i, j :: 0 <= i < j < |fields| ==> fields[i].key != fields[j].key
  }

  /** The parameters stand in the order of their fields. */
  predicate InFieldOrder(fields: seq<QueryField>, ps: seq<QueryParam>) {
    forall i, j :: 0 <= i < j < |ps| ==> Rank(fields, ps[i].key) < Rank(fields, ps[j].key)
  }

  /** The parameters come out in the order their fields are tested. */
  lemma {:induction false} AppendedInOrder(fields: seq<QueryField>)
    requires KeysDistinct(fields)
    ensures InFieldOrder(fields, Appended(fields))
  {
    if fields != [] {
      var rest := fields[1..];
      TailDistinct(fields);
      AppendedInOrder(rest);
      TailRanksLater(fields);
      ConsInOrder(fields, Appended(rest));
    }
  }

  /** Putting the first field's parameter, if any, before the later ones keeps the
      order. */
  lemma ConsInOrder(fields: seq<QueryField>, tail: seq<QueryParam>)
    requires fields != [] && tail == Appended(fields[1..])
    requires InFieldOrder(fields[1..], tail)
    requires forall k :: 0 <= k < |tail| ==> Rank(fields, tail[k].key) == 1 + Rank(fields[1..], tail[k].key) >= 1
    ensures InFieldOrder(fields, Appended(fields))
  {
    AppendedCons(fields);
    if fields[0].text.Some? {
      PrependInOrder(fields, QueryParam(fields[0].key, fields[0].text.value), tail);
    } else {
      assert Appended(fields) == tail;
      ShiftInOrder(fields, tail);
    }
  }

  /** The parameters of a non-empty list of fields: the first field's, if it is
      truthy, then those of the rest. */
  lemma AppendedCons(fields: seq<QueryField>)
    requires fields != []
    ensures Appended(fields) ==
      (if fields[0].text.Some? then [QueryParam(fields[0].key, fields[0].text.value)] else []) + Appended(fields[1..])
  {
  }

  /** Parameters in the order of the later fields are in the order of all of them. */
  lemma ShiftInOrder(fields: seq<QueryField>, tail: seq<QueryParam>)
    requires fields != [] && InFieldOrder(fields[1..], tail)
    requires forall k :: 0 <= k < |tail| ==> Rank(fields, tail[k].key) == 1 + Rank(fields[1..], tail[k].key) >= 1
    ensures InFieldOrder(fields, tail)
  {
    forall i, j | 0 <= i < j < |tail| ensures Rank(fields, tail[i].key) < Rank(fields, tail[j].key) {
      assert Rank(fields[1..], tail[i].key) < Rank(fields[1..], tail[j].key);
    }
  }

  /** The first field's parameter goes before those of the later fields. */
  lemma PrependInOrder(fields: seq<QueryField>, p: QueryParam, tail: seq<QueryParam>)
    requires fields != [] && p.key == fields[0].key && InFieldOrder(fields[1..], tail)
    requires forall k :: 0 <= k < |tail| ==> Rank(fields, tail[k].key) == 1 + Rank(fields[1..], tail[k].key) >= 1
    ensures InFieldOrder(fields, [p] + tail)
  {
    var r := [p] + tail;
    assert Rank(fields, p.key) == 0;
    ShiftInOrder(fields, tail);
    forall i, j | 0 <= i < j < |r| ensures Rank(fields, r[i].key) < Rank(fields, r[j].key) {
      assert r[j] == tail[j - 1];
      if i > 0 {
        assert r[i] == tail[i - 1];
      }
    }
  }

  lemma TailDistinct(fields: seq<QueryField>)
    requires fields != [] && KeysDistinct(fields)
    ensures KeysDistinct(fields[1..])
  {
    var rest := fields[1..];
    forall i, j | 0 <= i < j < |rest| ensures rest[i].key != rest[j].key {
      assert rest[i] == fields[i + 1] && rest[j] == fields[j + 1];
    }
  }

  /** A parameter from the later fields ranks one further on in the whole list. */
  lemma TailRanksLater(fields: seq<QueryField>)
    requires fields != [] && KeysDistinct(fields)
    ensures var tail := Appended(fields[1..]);
      forall k :: 0 <= k < |tail| ==> Rank(fields, tail[k].key) == 1 + Rank(fields[1..], tail[k].key) >= 1
  {
    var rest := fields[1..];
    var tail := Appended(rest);
    AppendedOnlyTruthy(rest);
    forall k | 0 <= k < |tail| ensures tail[k].key != fields[0].key {
      var p := tail[k];
      assert p in tail;
      var j :| 0 <= j < |rest| && rest[j] == QueryField(p.key, Some(p.value));
      assert fields[j + 1] == rest[j];
    }
  }

  /** `queryParams.toString()`, with `encode` standing for form encoding. */
  function Serialize(ps: seq<QueryParam>, encode: string -> string): (s: string)
    ensures ps != [] ==> s != []
  {
    if ps == [] then []
    else
      var head := encode(ps[0].key) + "=" + encode(ps[0].value);
      if |ps| == 1 then head else head + "&" + Serialize(ps[1..], encode)
  }

  /** `${path}${query ? `?${query}` : ''}`: a '?' and the query follow the path
      exactly when some parameter was appended. */
  function WithQuery(path: string, ps: seq<QueryParam>, encode: string -> string): (e: string)
    ensures ps == [] ==> e == path
    ensures ps != [] ==> e == path + "?" + Serialize(ps, encode)
    ensures |e| > |path| <==> ps != []
    ensures e[..|path|] == path
  {
    if ps == [] then path else path + "?" + Serialize(ps, encode)
  }

  /** `getInvoices` parameters. An absent `params` object has every field absent. */
  datatype InvoiceQuery = InvoiceQuery(page: Option<int>, limit: Option<int>, status: Option<string>, search: Option<string>)
  datatype ClientQuery = ClientQuery(page: Option<int>, limit: Option<int>, search: Option<string>)
  datatype ExpenseQuery = ExpenseQuery(
    page: Option<int>, limit: Option<int>, category: Option<string>,
    startDate: Option<string>, endDate: Option<string>, search: Option<string>)
  datatype StatsQuery = StatsQuery(startDate: Option<string>, endDate: Option<string>)

  function InvoiceQueryFields(q: InvoiceQuery): (f: seq<QueryField>)
    ensures KeysDistinct(f)
  {
    [QueryField("page", NumberText(q.page)), QueryField("limit", NumberText(q.limit)),
     QueryField("status", Text(q.status)), QueryField("search", Text(q.search))]
  }

  function ClientQueryFields(q: ClientQuery): (f: seq<QueryField>)
    ensures KeysDistinct(f)
  {
    [QueryField("page", NumberText(q.page)), QueryField("limit", NumberText(q.limit)), QueryField("search", Text(q.search))]
  }

  function ExpenseQueryFields(q: ExpenseQuery): (f: seq<QueryField>)
    ensures KeysDistinct(f)
  {
    [QueryField("page", NumberText(q.page)), QueryField("limit", NumberText(q.limit)),
     QueryField("category", Text(q.category)), QueryField("startDate", Text(q.startDate)),
     QueryField("endDate", Text(q.endDate)), QueryField("search", Text(q.search))]
  }

  function StatsQueryFields(q: StatsQuery): (f: seq<QueryField>)
    ensures KeysDistinct(f)
  {
    [QueryField("startDate", Text(q.startDate)), QueryField("endDate", Text(q.endDate))]
  }

  /** Appending the fields one test at a time builds `Appended`. */
  lemma AppendedStep(done: seq<QueryField>, next: QueryField)
    ensures Appended(done + [next]) == Appended(done) + (if next.text.Some? then [QueryParam(next.key, next.text.value)] else [])
  {
    AppendedConcat(done, [next]);
  }

  lemma {:induction false} AppendedConcat(a: seq<QueryField>, b: seq<QueryField>)
    ensures Appended(a + b) == Appended(a) + Appended(b)
  {
    if a == [] {
      assert a + b == b;
    } else {
      assert (a + b)[0] == a[0];
      assert (a + b)[1..] == a[1..] + b;
      AppendedConcat(a[1..], b);
    }
  }

  /** One `if (...) queryParams.append(...)` step. */
  method AppendIf(ps: seq<QueryParam>, ghost done: seq<QueryField>, next: QueryField) returns (r: seq<QueryParam>)
    requires ps == Appended(done)
    ensures r == Appended(done + [next])
  {
    AppendedStep(done, next);
    r := ps;
    if next.text.Some? {
      r := r + [QueryParam(next.key, next.text.value)];
    }
  }

  /** `getInvoices`: the endpoint it requests. */
  method InvoicesEndpoint(q: InvoiceQuery, encode: string -> string) returns (endpoint: string, ps: seq<QueryParam>)
    ensures ps == Appended(InvoiceQueryFields(q)) && endpoint == WithQuery("/invoices", ps, encode)
  {
    var f := InvoiceQueryFields(q);
    ps := [];
    ps := AppendIf(ps, [], f[0]);
    ps := AppendIf(ps, f[..1], f[1]);
    assert f[..1] + [f[1]] == f[..2];
    ps := AppendIf(ps, f[..2], f[2]);
    assert f[..2] + [f[2]] == f[..3];
    ps := AppendIf(ps, f[..3], f[3]);
    assert f[..3] + [f[3]] == f;
    endpoint := WithQuery("/invoices", ps, encode);
  }

  /** `getClients`: the endpoint it requests. */
  method ClientsEndpoint(q: ClientQuery, encode: string -> string) returns (endpoint: string, ps: seq<QueryParam>)
    ensures ps == Appended(ClientQueryFields(q)) && endpoint == WithQuery("/clients", ps, encode)
  {
    var f := ClientQueryFields(q);
    ps := [];
    ps := AppendIf(ps, [], f[0]);
    ps := AppendIf(ps, f[..1], f[1]);
    assert f[..1] + [f[1]] == f[..2];
    ps := AppendIf(ps, f[..2], f[2]);
    assert f[..2] + [f[2]] == f;
    endpoint := WithQuery("/clients", ps, encode);
  }

  /** `getExpenses`: the endpoint it requests. */
  method ExpensesEndpoint(q: ExpenseQuery, encode: string -> string) returns (endpoint: string, ps: seq<QueryParam>)
    ensures ps == Appended(ExpenseQueryFields(q)) && endpoint == WithQuery("/expenses", ps, encode)
  {
    var f := ExpenseQueryFields(q);
    ps := [];
    ps := AppendIf(ps, [], f[0]);
    ps := AppendIf(ps, f[..1], f[1]);
    assert f[..1] + [f[1]] == f[..2];
    ps := AppendIf(ps, f[..2], f[2]);
    assert f[..2] + [f[2]] == f[..3];
    ps := AppendIf(ps, f[..3], f[3]);
    assert f[..3] + [f[3]] == f[..4];
    ps := AppendIf(ps, f[..4], f[4]);
    assert f[..4] + [f[4]] == f[..5];
    ps := AppendIf(ps, f[..5], f[5]);
    assert f[..5] + [f[5]] == f;
    endpoint := WithQuery("/expenses", ps, encode);
  }

  /** `getExpenseStats`: the endpoint it requests. */
  method StatsEndpoint(q: StatsQuery, encode: string -> string) returns (endpoint: string, ps: seq<QueryParam>)
    ensures ps == Appended(StatsQueryFields(q)) && endpoint == WithQuery("/expenses/stats", ps, encode)
  {
    var f := StatsQueryFields(q);
    ps := [];
    ps := AppendIf(ps, [], f[0]);
    ps := AppendIf(ps, f[..1], f[1]);
    assert f[..1] + [f[1]] == f;
    endpoint := WithQuery("/expenses/stats", ps, encode);
  }

  /** For `getInvoices`: each parameter is sent exactly when it is truthy, in the
      order page, limit, status, search, and the '?' appears only with one of them. */
  lemma InvoiceQueryShape(q: InvoiceQuery, encode: string -> string)
    ensures var ps := Appended(InvoiceQueryFields(q));
      && (QueryParam("status", q.status.value) in ps <== q.status.Some? && q.status.value != [])
      && (forall p :: p in ps && p.key == "status" ==> q.status == Some(p.value) && p.value != [])
      && (forall p :: p in ps && p.key == "page" ==> q.page.Some? && q.page.value != 0 && p.value == IntToString(q.page.value))
      && InFieldOrder(InvoiceQueryFields(q), ps)
      && (|WithQuery("/invoices", ps, encode)| > |"/invoices"| <==>
            (q.page.Some? && q.page.value != 0) || (q.limit.Some? && q.limit.value != 0)
            || (q.status.Some? && q.status.value != []) || (q.search.Some? && q.search.value != []))
  {
    var f := InvoiceQueryFields(q);
    AppendedInOrder(f);
    AppendedSendsTruthy(f);
    AppendedOnlyTruthy(f);
    assert f[0].key == "page" && f[1].key == "limit" && f[2].key == "status" && f[3].key == "search";
  }
}

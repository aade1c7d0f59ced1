/** server/routes/client.js: the client request body, the two express-validator
    chains with the sanitizers they apply to the body, and the route order. */
module ClientRoutes {
  import opened Common

  /** `req.body` of a client request; a field is None when it is absent. */
  datatype ClientBody = ClientBody(
    name: Option<string>,
    email: Option<string>,
    phone: Option<string>,
    address: Option<string>,
    company: Option<string>,
    taxId: Option<string>)

  /** `.trim().isLength({ min, max })` on a field that must be present. */
  predicate TrimmedLength(f: Option<string>, min: nat, max: nat) {
    f.Some? && min <= |Trim(f.value)| <= max
  }

  /** `.optional().trim().isLength({ max })`. */
  predicate OptionalTrimmedAtMost(f: Option<string>, max: nat) {
    f.None? || |Trim(f.value)| <= max
  }

  predicate Present(f: Option<string>) {
    f.Some? && !IsBlank(f.value)
  }

  /** `clientValidation`; `isEmail` stands for the library's address check. */
  predicate CreateValid(b: ClientBody, isEmail: string -> bool) {
    && TrimmedLength(b.name, 2, 100)
    && b.email.Some? && isEmail(b.email.value)
    && Present(b.phone) && Present(b.address)
    && OptionalTrimmedAtMost(b.company, 100)
    && OptionalTrimmedAtMost(b.taxId, 50)
  }

  /** `updateClientValidation`: every field optional, the same rules when present. */
  predicate UpdateValid(b: ClientBody, isEmail: string -> bool) {
    && (b.name.None? || TrimmedLength(b.name, 2, 100))
    && (b.email.None? || isEmail(b.email.value))
    && (b.phone.None? || Present(b.phone))
    && (b.address.None? || Present(b.address))
    && OptionalTrimmedAtMost(b.company, 100)
    && OptionalTrimmedAtMost(b.taxId, 50)
  }

  function TrimField(f: Option<string>): (r: Option<string>)
    ensures r.Some? <==> f.Some?
    ensures r.Some? ==> r.value == Trim(f.value)
  {
    if f.Some? then Some(Trim(f.value)) else None
  }

  /** The body the controller sees: the chains' `trim()` and `normalizeEmail()`
      sanitizers rewrite the fields they are attached to. `normalize` stands for
      the library's address normalisation. */
  function Sanitized(b: ClientBody, normalize: string -> string): (r: ClientBody)
    ensures r.email == (if b.email.Some? then Some(normalize(b.email.value)) else None)
    ensures r.name == TrimField(b.name) && r.phone == TrimField(b.phone) && r.address == TrimField(b.address)
    ensures r.company == TrimField(b.company) && r.taxId == TrimField(b.taxId)
  {
    ClientBody(TrimField(b.name), if b.email.Some? then Some(normalize(b.email.value)) else None,
               TrimField(b.phone), TrimField(b.address), TrimField(b.company), TrimField(b.taxId))
  }

  /** What a sanitized body that passed the create chain guarantees the controller. */
  predicate CreateClean(b: ClientBody) {
    && b.name.Some? && !IsBlank(b.name.value) && |b.name.value| <= 100
    && b.email.Some?
    && Present(b.phone) && Present(b.address)
    && (b.company.Some? ==> |b.company.value| <= 100)
    && (b.taxId.Some? ==> |b.taxId.value| <= 50)
  }

  predicate UpdateClean(b: ClientBody) {
    && (b.name.Some? ==> !IsBlank(b.name.value) && |b.name.value| <= 100)
    && (b.phone.Some? ==> Present(b.phone))
    && (b.address.Some? ==> Present(b.address))
    && (b.company.Some? ==> |b.company.value| <= 100)
    && (b.taxId.Some? ==> |b.taxId.value| <= 50)
  }

  /** `trim` runs before the checks it precedes and `normalizeEmail` after
      `isEmail`, and what passes stays clean: a body that passes a chain reaches
      the controller with its names, phones and addresses non-blank and within
      their lengths. */
  lemma SanitizedCreateIsClean(b: ClientBody, isEmail: string -> bool, normalize: string -> string)
    requires CreateValid(b, isEmail)
    ensures CreateClean(Sanitized(b, normalize))
  {
    TrimmedNotBlank(b.name.value);
    TrimmedNotBlank(b.phone.value);
    TrimmedNotBlank(b.address.value);
  }

  lemma SanitizedUpdateIsClean(b: ClientBody, isEmail: string -> bool, normalize: string -> string)
    requires UpdateValid(b, isEmail)
    ensures UpdateClean(Sanitized(b, normalize))
  {
    if b.name.Some? { TrimmedNotBlank(b.name.value); }
    if b.phone.Some? { TrimmedNotBlank(b.phone.value); }
    if b.address.Some? { TrimmedNotBlank(b.address.value); }
  }

  // ---------------------------------------------------------------------------
  // Route table

  datatype Handler = GetClients | GetClientStats | GetClient | CreateClient | UpdateClient | DeleteClient

  const Routes: seq<Route<Handler>> := [
    Route(GET, [], GetClients),
    Route(GET, [Lit("stats")], GetClientStats),
    Route(GET, [Param], GetClient),
    Route(POST, [], CreateClient),
    Route(PUT, [Param], UpdateClient),
    Route(DELETE, [Param], DeleteClient)]

  /** `GET /stats` reaches the statistics handler; any other single segment is an id. */
  lemma StatsBeforeId(id: string)
    ensures HandlerFor(Routes, GET, ["stats"]) == Some(GetClientStats)
    ensures id != "stats" ==> HandlerFor(Routes, GET, [id]) == Some(GetClient)
  {
    assert RouteMatches(Routes[1], GET, ["stats"]);
    assert !RouteMatches(Routes[0], GET, ["stats"]);
    if id != "stats" {
      assert !RouteMatches(Routes[0], GET, [id]);
      assert !SegmentsMatch(Routes[1].pattern, [id]) by {
        assert Routes[1].pattern[0] == Lit("stats") && [id][0] == id;
      }
      assert RouteMatches(Routes[2], GET, [id]);
    }
  }
}

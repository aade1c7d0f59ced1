/** Vocabulary shared by the server and the browser client: optional values,
    request fields, HTTP status codes, the ownership guard, the invoice status
    enumeration and the string helpers (trim, lower-case, decimal digits). */
module Common {

  datatype Option<T> = None | Some(value: T)

  /** A field of a JSON request body: absent (`undefined`), present with a value of
      the expected type, or present but of another type / unparseable. */
  datatype Field<T> = Missing | Given(value: T) | Malformed

  /** Record identifiers (Mongo ObjectIds as hex strings, redux ids). */
  type Id = string

  /** A value compared with a document field in a query: an ObjectId, or text
      (`req.user.id` is the requester's id as text). */
  datatype QueryValue = ObjectIdValue(id: Id) | TextValue(text: string)

  /** `find` and `countDocuments` cast text compared with an ObjectId field to an
      ObjectId; an aggregation's `$match` compares the value as it is. */
  function CastToObjectId(v: QueryValue): (r: QueryValue)
    ensures r.ObjectIdValue?
    ensures r.id == (if v.TextValue? then v.text else v.id)
  {
    match v
    case TextValue(t) => ObjectIdValue(t)
    case ObjectIdValue(_) => v
  }

  const OK: nat := 200
  const CREATED: nat := 201
  const BAD_REQUEST: nat := 400
  const UNAUTHORIZED: nat := 401
  const NOT_FOUND: nat := 404
  const SERVER_ERROR: nat := 500

  /** The check every single-record handler performs: a missing record is reported
      as not found before ownership is looked at. `owner` is the owner of the record
      found by id, if any. */
  function GuardCode(owner: Option<Id>, requester: Id): (code: nat)
    ensures code == NOT_FOUND <==> owner.None?
    ensures code == UNAUTHORIZED <==> owner.Some? && owner.value != requester
    ensures code == OK <==> owner == Some(requester)
  {
    if owner.None? then NOT_FOUND
    else if owner.value != requester then UNAUTHORIZED
    else OK
  }

  // ---------------------------------------------------------------------------
  // Invoice status, shared by the schema, the validators and the browser types

  datatype Status = Draft | Sent | Paid | Overdue

  function StatusName(st: Status): (s: string)
    ensures s in {"draft", "sent", "paid", "overdue"}
  {
    match st
    case Draft => "draft"
    case Sent => "sent"
    case Paid => "paid"
    case Overdue => "overdue"
  }

  /** `isIn(['draft', 'sent', 'paid', 'overdue'])` together with the value it names. */
  function ParseStatus(s: string): (r: Option<Status>)
    ensures r.Some? <==> s in {"draft", "sent", "paid", "overdue"}
  {
    if s == "draft" then Some(Draft)
    else if s == "sent" then Some(Sent)
    else if s == "paid" then Some(Paid)
    else if s == "overdue" then Some(Overdue)
    else None
  }

  /** Status names and the parser are inverse to each other. */
  lemma StatusRoundTrip(st: Status, s: string)
    ensures ParseStatus(StatusName(st)) == Some(st)
    ensures ParseStatus(s) == Some(st) ==> s == StatusName(st)
  {
  }

  // ---------------------------------------------------------------------------
  // Strings

  /** The white space that `String.prototype.trim` removes and a regular
      expression's `\s` matches: the ASCII spaces, NBSP, BOM, the Unicode space
      separators and the two Unicode line terminators. */
  predicate IsSpace(c: char) {
    || c == ' ' || c == '\t' || c == '\n' || c == '\r' || c == '\U{B}' || c == '\U{C}'
    || c == '\U{A0}' || c == '\U{1680}' || '\U{2000}' <= c <= '\U{200A}'
    || c == '\U{2028}' || c == '\U{2029}' || c == '\U{202F}' || c == '\U{205F}'
    || c == '\U{3000}' || c == '\U{FEFF}'
  }

  predicate AllSpace(s: string) {
    forall i :: 0 <= i < |s| ==> IsSpace(s[i])
  }

  function TrimStart(s: string): (r: string)
    ensures |r| <= |s| && r == s[|s| - |r|..]
    ensures r == [] || !IsSpace(r[0])
    ensures AllSpace(s[..|s| - |r|])
  {
    if s != [] && IsSpace(s[0]) then TrimStart(s[1..]) else s
  }

  function TrimEnd(s: string): (r: string)
    ensures |r| <= |s| && r == s[..|r|]
    ensures r == [] || !IsSpace(r[|r| - 1])
    ensures AllSpace(s[|r|..])
  {
    if s != [] && IsSpace(s[|s| - 1]) then
      var init := s[..|s| - 1];
      var r := TrimEnd(init);
      assert s[|r|..] == init[|r|..] + [s[|s| - 1]];
      assert init[..|r|] == s[..|r|];
      r
    else s
  }

  /** `s.trim()`: what is left once the white space at both ends is cut away;
      it neither starts nor ends with white space, and `TrimIsInfix` shows it is
      the infix between the two cut runs. */
  function Trim(s: string): (r: string)
    ensures |r| <= |s|
    ensures r == [] <==> AllSpace(s)
    ensures r != [] ==> !IsSpace(r[0]) && !IsSpace(r[|r| - 1])
  {
    TrimBlankIff(s);
    TrimEnd(TrimStart(s))
  }

  /** `r` sits in `s` at `i` with nothing but white space on either side. */
  predicate InfixAt(s: string, r: string, i: int) {
    && 0 <= i <= |s| - |r| && r == s[i..i + |r|]
    && AllSpace(s[..i]) && AllSpace(s[i + |r|..])
  }

  /** What `trim` keeps is an infix of the input, and what it cuts on either side
      is white space only. */
  lemma TrimIsInfix(s: string)
    ensures exists i :: InfixAt(s, Trim(s), i)
  {
    var t := TrimStart(s);
    var r := TrimEnd(t);
    var i := |s| - |t|;
    InfixOfSuffix(s, t, r, i);
    assert InfixAt(s, Trim(s), i);
  }

  lemma InfixOfSuffix(s: string, t: string, r: string, i: nat)
    requires i <= |s| && t == s[i..] && |r| <= |t| && r == t[..|r|]
    requires AllSpace(s[..i]) && AllSpace(t[|r|..])
    ensures InfixAt(s, r, i)
  {
    assert s[i + |r|..] == t[|r|..];
  }

  lemma TrimBlankIff(s: string)
    ensures TrimEnd(TrimStart(s)) == [] <==> AllSpace(s)
  {
    var t := TrimStart(s);
    var k := |s| - |t|;
    if TrimEnd(t) == [] {
      assert AllSpace(t[0..]);
      assert t[0..] == t;
      assert k == |s|;
      forall i | 0 <= i < |s| ensures IsSpace(s[i]) {
        assert s[i] == s[..k][i];
      }
    }
  }

  /** Trimming twice is trimming once. */
  lemma TrimIdempotent(s: string)
    ensures Trim(Trim(s)) == Trim(s)
  {
    var r := Trim(s);
    if r != [] {
      assert TrimStart(r) == r;
      assert TrimEnd(r) == r;
    }
  }

  /** Blank: nothing but white space (what `.trim().notEmpty()` rejects). */
  predicate IsBlank(s: string) {
    Trim(s) == []
  }

  /** Trimming is idempotent on blankness: a trimmed text that is not empty is not
      blank. */
  lemma TrimmedNotBlank(s: string)
    requires Trim(s) != []
    ensures !IsBlank(Trim(s))
  {
    var t := Trim(s);
    assert !IsSpace(t[0]);
    assert !AllSpace(t);
  }

  function LowerChar(c: char): char {
    if 'A' <= c <= 'Z' then (c as int + 32) as char else c
  }

  /** `toLowerCase` on the ASCII letters. */
  function ToLower(s: string): (r: string)
    ensures |r| == |s|
    ensures forall i :: 0 <= i < |s| ==> r[i] == LowerChar(s[i])
    ensures forall i :: 0 <= i < |s| ==> !('A' <= r[i] <= 'Z')
  {
    seq(|s|, i requires 0 <= i < |s| => LowerChar(s[i]))
  }

  lemma ToLowerIdempotent(s: string)
    ensures ToLower(ToLower(s)) == ToLower(s)
  {
  }

  predicate IsDigit(c: char) {
    '0' <= c <= '9'
  }

  function DigitChar(d: nat): (c: char)
    requires d < 10
    ensures IsDigit(c)
  {
    ('0' as int + d) as char
  }

  predicate AllDigits(s: string) {
    forall i :: 0 <= i < |s| ==> IsDigit(s[i])
  }

  /** The number a string of decimal digits denotes, most significant first. */
  function DigitsValue(s: string): nat
    requires AllDigits(s)
  {
    if s == [] then 0 else DigitsValue(s[..|s| - 1]) * 10 + (s[|s| - 1] as int - '0' as int)
  }

  /** Decimal digits, optionally after a minus sign. */
  predicate IsNumeral(s: string) {
    if s != [] && s[0] == '-' then AllDigits(s[1..]) else AllDigits(s)
  }

  /** The number an optionally signed decimal numeral denotes. */
  function SignedValue(s: string): int
    requires IsNumeral(s)
  {
    if s != [] && s[0] == '-' then -(DigitsValue(s[1..]) as int) else DigitsValue(s)
  }

  /** Decimal text of a natural number, as `toString()` prints it: digits only,
      no leading zero, denoting `n`. */
  function NatToString(n: nat): (r: string)
    ensures |r| >= 1 && AllDigits(r)
    ensures DigitsValue(r) == n
    ensures r[0] == '0' ==> r == "0"
  {
    if n < 10 then [DigitChar(n)]
    else
      var p := NatToString(n / 10);
      var r := p + [DigitChar(n % 10)];
      assert r[..|r| - 1] == p;
      r
  }

  /** Decimal text of an integer: a minus sign before the digits of a negative
      number, so it reads back as `n`. */
  function IntToString(n: int): (r: string)
    ensures |r| >= 1
    ensures (r[0] == '-') <==> n < 0
    ensures IsNumeral(r) && SignedValue(r) == n
  {
    if n < 0 then
      var r := "-" + NatToString(-n);
      assert r[1..] == NatToString(-n);
      r
    else NatToString(n)
  }

  predicate IsHexChar(c: char) {
    '0' <= c <= '9' || 'a' <= c <= 'f' || 'A' <= c <= 'F'
  }

  /** Exactly 24 hexadecimal characters in either case: `isMongoId()` on the
      server and `/^[a-f\d]{24}$/i` in the invoice form. */
  predicate IsObjectIdText(s: string) {
    |s| == 24 && forall i :: 0 <= i < |s| ==> IsHexChar(s[i])
  }

  // ---------------------------------------------------------------------------
  // Express routing: routes are tried in the order they were registered

  datatype Verb = GET | POST | PUT | DELETE | PATCH

  /** A path segment of a route: literal text or a `:param`. */
  datatype Segment = Lit(text: string) | Param

  datatype Route<H> = Route(verb: Verb, pattern: seq<Segment>, handler: H)

  predicate SegmentsMatch(pattern: seq<Segment>, path: seq<string>) {
    |pattern| == |path| && forall i :: 0 <= i < |path| ==> (pattern[i].Lit? ==> pattern[i].text == path[i])
  }

  predicate RouteMatches<H>(r: Route<H>, verb: Verb, path: seq<string>) {
    r.verb == verb && SegmentsMatch(r.pattern, path)
  }

  /** The handler of the first registered route that matches, if any. */
  function Dispatch<H>(table: seq<Route<H>>, verb: Verb, path: seq<string>): (r: Option<nat>)
    ensures r.Some? ==> r.value < |table| && RouteMatches(table[r.value], verb, path)
    ensures r.Some? ==> forall j :: 0 <= j < r.value ==> !RouteMatches(table[j], verb, path)
    ensures r.None? <==> forall j :: 0 <= j < |table| ==> !RouteMatches(table[j], verb, path)
  {
    if table == [] then None
    else if RouteMatches(table[0], verb, path) then Some(0)
    else match Dispatch(table[1..], verb, path)
      case None => None
      case Some(i) => Some(i + 1)
  }

  /** Which handler a request reaches: the handler of the first matching route,
      and none exactly when no route matches. */
  function HandlerFor<H>(table: seq<Route<H>>, verb: Verb, path: seq<string>): (h: Option<H>)
    ensures h.Some? <==> exists j :: 0 <= j < |table| && RouteMatches(table[j], verb, path)
    ensures h.Some? ==> exists j :: 0 <= j < |table| && RouteMatches(table[j], verb, path) && table[j].handler == h.value
  {
    match Dispatch(table, verb, path)
    case None => None
    case Some(i) => Some(table[i].handler)
  }

  /** A matching route that no earlier route matches is the one dispatched to. */
  lemma DispatchFirst<H>(table: seq<Route<H>>, verb: Verb, path: seq<string>, i: nat)
    requires i < |table| && RouteMatches(table[i], verb, path)
    requires forall j :: 0 <= j < i ==> !RouteMatches(table[j], verb, path)
    ensures Dispatch(table, verb, path) == Some(i)
  {
  }

  // ---------------------------------------------------------------------------
  // Arithmetic on reals

  /** Multiplying by a positive factor keeps the order, and cancels. */
  lemma ScaleCompare(a: real, b: real, s: real)
    requires s > 0.0
    ensures a > b <==> a * s > b * s
    ensures a == b <==> a * s == b * s
  {
    assert a * s - b * s == (a - b) * s;
  }

  lemma ProductNonNeg(a: real, b: real)
    requires a >= 0.0 && b >= 0.0
    ensures a * b >= 0.0
  {
  }

  lemma ScaledSum(a: real, b: real, s: real, x: real, y: real)
    requires a * s == x && b * s == y
    ensures (a + b) * s == x + y
  {
  }
}

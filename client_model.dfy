/** The client document of server/models/Client.js: field constraints, the stored
    (lower-cased) email and its pattern, and the per-user uniqueness of emails. */
module ClientModel {
  import opened Common
  import opened Folds

  datatype Client = Client(
    id: Id,
    user: Id,
    name: string,
    email: string,
    phone: string,
    address: string,
    company: Option<string>,
    taxId: Option<string>,
    createdAt: int)

  function IdOf(c: Client): Id { c.id }
  function OwnerOf(c: Client): Id { c.user }

  /** The unique index `{ user: 1, email: 1 }`. */
  function UserEmail(c: Client): (Id, string) { (c.user, c.email) }

  // ---------------------------------------------------------------------------
  // The email pattern `^\w+([.-]?\w+)*@\w+([.-]?\w+)*(\.\w{2,3})+$`

  /** `\w`: ASCII letters, digits and underscore. */
  predicate IsWordChar(c: char) {
    'a' <= c <= 'z' || 'A' <= c <= 'Z' || '0' <= c <= '9' || c == '_'
  }

  predicate IsJoiner(c: char) {
    c == '.' || c == '-'
  }

  /** `\w+([.-]?\w+)*` on `s[lo..hi]`: word characters with single dots or hyphens
      between them, and a word character at both ends. */
  predicate DottedWord(s: string, lo: nat, hi: nat)
    requires lo <= hi <= |s|
  {
    && lo < hi
    && IsWordChar(s[lo]) && IsWordChar(s[hi - 1])
    && (forall i :: lo <= i < hi ==> IsWordChar(s[i]) || IsJoiner(s[i]))
    && (forall i :: lo <= i < hi - 1 && IsJoiner(s[i]) ==> IsWordChar(s[i + 1]))
  }

  /** `s` read as local part `s[..at]`, `@`, domain `s[at + 1..dot]`, `.` and two or
      three word characters `s[dot + 1..]`. Several `(\.\w{2,3})` groups are a
      dotted word followed by one last group, so one last group is all it takes. */
  predicate EmailSplit(s: string, at: nat, dot: nat) {
    && at < dot < |s| && 2 <= |s| - dot - 1 <= 3
    && s[at] == '@' && s[dot] == '.'
    && DottedWord(s, 0, at) && DottedWord(s, at + 1, dot)
    && (forall i :: dot < i < |s| ==> IsWordChar(s[i]))
  }

  predicate EmailPattern(s: string) {
    exists at: nat, dot: nat | at < dot < |s| :: EmailSplit(s, at, dot)
  }

  lemma LowerKeepsClasses(c: char)
    ensures IsWordChar(LowerChar(c)) <==> IsWordChar(c)
    ensures IsJoiner(LowerChar(c)) <==> IsJoiner(c)
    ensures LowerChar(c) == '.' <==> c == '.'
    ensures LowerChar(c) == '@' <==> c == '@'
  {
  }

  lemma EmailSplitLower(s: string, at: nat, dot: nat)
    requires EmailSplit(s, at, dot)
    ensures EmailSplit(ToLower(s), at, dot)
  {
    var t := ToLower(s);
    forall i | 0 <= i < |s| ensures (IsWordChar(t[i]) <==> IsWordChar(s[i])) && (IsJoiner(t[i]) <==> IsJoiner(s[i])) {
      LowerKeepsClasses(s[i]);
    }
    LowerKeepsClasses(s[at]);
    LowerKeepsClasses(s[dot]);
  }

  /** Lower-casing (the schema's `lowercase: true`, applied before `match` is
      checked) never turns a matching address into one that does not match. */
  lemma EmailPatternLower(s: string)
    requires EmailPattern(s)
    ensures EmailPattern(ToLower(s))
  {
    var at: nat, dot: nat :| EmailSplit(s, at, dot);
    EmailSplitLower(s, at, dot);
  }

  /** An address matching the pattern has exactly one `@`, the one it is split at. */
  lemma EmailPatternOneAt(s: string, at: nat, dot: nat, i: nat)
    requires EmailSplit(s, at, dot)
    requires i < |s| && s[i] == '@'
    ensures i == at
  {
  }

  // ---------------------------------------------------------------------------
  // Schema constraints

  /** name required (trimmed, so not empty) and at most 100 characters; email
      present, lower-cased and matching the pattern; phone and address required. */
  predicate SchemaOk(c: Client) {
    && c.name != [] && |c.name| <= 100
    && c.email != [] && c.email == ToLower(c.email) && EmailPattern(c.email)
    && c.phone != [] && c.address != []
  }

  /** What the `lowercase` and `trim` setters store for the given fields. */
  function Cast(id: Id, user: Id, name: string, email: string, phone: string, address: string,
                company: Option<string>, taxId: Option<string>, now: int): Client
  {
    Client(id, user, Trim(name), ToLower(email), Trim(phone), Trim(address),
           TrimOpt(company), TrimOpt(taxId), now)
  }

  /** The `trim` setter on an optional field: an absent value stays absent; a
      present one loses its surrounding white space and is empty exactly when it
      was blank. */
  function TrimOpt(s: Option<string>): (r: Option<string>)
    ensures r.Some? <==> s.Some?
    ensures r.Some? ==> |r.value| <= |s.value| && (r.value == [] <==> AllSpace(s.value))
    ensures r.Some? && r.value != [] ==> !IsSpace(r.value[0]) && !IsSpace(r.value[|r.value| - 1])
  {
    match s
    case None => None
    case Some(v) => Some(Trim(v))
  }

  /** Setting an optional field twice stores what setting it once does. */
  lemma TrimOptIdempotent(s: Option<string>)
    ensures TrimOpt(TrimOpt(s)) == TrimOpt(s)
  {
    if s.Some? {
      TrimIdempotent(s.value);
    }
  }

  /** The unique index: at most one client per (user, email). */
  predicate EmailsUnique(cs: seq<Client>) {
    UniqueBy(cs, UserEmail)
  }
}

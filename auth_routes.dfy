/** server/routes/auth.js: the four express-validator chains over account requests,
    the sanitizers they apply, and which routes run a chain at all. */
module AuthRoutes {
  import opened Common

  /** `req.body` of register, login and updateprofile; a field is None when absent. */
  datatype AccountBody = AccountBody(name: Option<string>, email: Option<string>, password: Option<string>)

  /** `req.body` of changepassword. */
  datatype PasswordBody = PasswordBody(currentPassword: Option<string>, newPassword: Option<string>)

  /** `.trim().isLength({ min: 2, max: 50 })`. */
  predicate NameOk(name: string) {
    2 <= |Trim(name)| <= 50
  }

  /** `.notEmpty()`: the text is not the empty string (whitespace counts as content). */
  predicate NotEmpty(f: Option<string>) {
    f.Some? && f.value != []
  }

  /** `.isLength({ min: 6 })`. */
  predicate AtLeastSix(f: Option<string>) {
    f.Some? && |f.value| >= 6
  }

  /** `registerValidation`; `isEmail` stands for the library's address check. */
  predicate RegisterValid(b: AccountBody, isEmail: string -> bool) {
    && b.name.Some? && NameOk(b.name.value)
    && b.email.Some? && isEmail(b.email.value)
    && AtLeastSix(b.password)
  }

  /** `loginValidation`. */
  predicate LoginValid(b: AccountBody, isEmail: string -> bool) {
    b.email.Some? && isEmail(b.email.value) && NotEmpty(b.password)
  }

  /** `updateProfileValidation`: both fields optional, checked when present. */
  predicate UpdateProfileValid(b: AccountBody, isEmail: string -> bool) {
    && (b.name.None? || NameOk(b.name.value))
    && (b.email.None? || isEmail(b.email.value))
  }

  /** `changePasswordValidation`. */
  predicate ChangePasswordValid(b: PasswordBody) {
    NotEmpty(b.currentPassword) && AtLeastSix(b.newPassword)
  }

  /** The body the controller sees: the chains trim the name and normalise the
      email; the password is left as sent. */
  function Sanitized(b: AccountBody, normalize: string -> string): (r: AccountBody)
    ensures r.name.Some? <==> b.name.Some?
    ensures r.name.Some? ==> r.name.value == Trim(b.name.value)
    ensures r.email == (if b.email.Some? then Some(normalize(b.email.value)) else None)
    ensures r.password == b.password
  {
    AccountBody(if b.name.Some? then Some(Trim(b.name.value)) else None,
                if b.email.Some? then Some(normalize(b.email.value)) else None,
                b.password)
  }

  /** What a sanitized body that passed the register chain guarantees the controller. */
  predicate RegisterClean(b: AccountBody) {
    && b.name.Some? && 2 <= |b.name.value| <= 50
    && b.email.Some?
    && AtLeastSix(b.password)
  }

  predicate UpdateProfileClean(b: AccountBody) {
    b.name.Some? ==> 2 <= |b.name.value| <= 50
  }

  /** The name is trimmed after it is measured, and trimming keeps the length
      within 2..50 because the measure is taken on the trimmed text. */
  lemma SanitizedRegisterIsClean(b: AccountBody, isEmail: string -> bool, normalize: string -> string)
    requires RegisterValid(b, isEmail)
    ensures RegisterClean(Sanitized(b, normalize))
  {
  }

  lemma SanitizedProfileIsClean(b: AccountBody, isEmail: string -> bool, normalize: string -> string)
    requires UpdateProfileValid(b, isEmail)
    ensures UpdateProfileClean(Sanitized(b, normalize))
  {
  }

  // ---------------------------------------------------------------------------
  // Route table

  datatype Handler = Register | Login | GetMe | UpdateProfile | ChangePassword | UpdateSalary

  /** The chain each route runs before its handler, if any. */
  datatype Chain = RegisterChain | LoginChain | ProfileChain | PasswordChain | NoChain

  const Routes: seq<Route<Handler>> := [
    Route(POST, [Lit("register")], Register),
    Route(POST, [Lit("login")], Login),
    Route(GET, [Lit("me")], GetMe),
    Route(PUT, [Lit("updateprofile")], UpdateProfile),
    Route(PUT, [Lit("changepassword")], ChangePassword),
    Route(PUT, [Lit("updatesalary")], UpdateSalary)]

  function ChainOf(h: Handler): Chain {
    match h
    case Register => RegisterChain
    case Login => LoginChain
    case GetMe => NoChain
    case UpdateProfile => ProfileChain
    case ChangePassword => PasswordChain
    case UpdateSalary => NoChain
  }

  /** Every account route but two validates its body; `/me` reads nothing from the
      body and `/updatesalary` leaves the salary check to its handler. */
  lemma UnvalidatedRoutes(h: Handler)
    ensures ChainOf(h) == NoChain <==> h == GetMe || h == UpdateSalary
  {
  }

}

/** server/controllers/authController.js: account handlers over the users table,
    and the route pipelines of server/routes/auth.js. `matchPassword` (bcrypt) is a
    parameter comparing a stored password with a candidate; tokens are not modelled. */
module AuthController {
  import opened Common
  import opened Folds
  import opened AuthRoutes
  import opened Store

  /** At most one account per email address. */
  predicate EmailsUnique(users: seq<User>) {
    UniqueBy(users, UserEmail)
  }

  // ---------------------------------------------------------------------------
  // register

  /** POST /api/auth/register: 400 when an account already has the email, otherwise
      the account is created (salary unset) and 201 returned. */
  method Register(db: Database, b: AccountBody, newId: Id) returns (code: nat, created: Option<User>)
    requires db.Valid() && RegisterClean(b) && db.FreshUserId(newId)
    modifies db
    ensures db.Valid()
    ensures db.clients == old(db.clients) && db.invoices == old(db.invoices) && db.expenses == old(db.expenses)
    ensures code == BAD_REQUEST <==> old(db.FindUserByEmail(b.email.value)).Some?
    ensures code == BAD_REQUEST ==> created.None? && db.users == old(db.users)
    ensures code != BAD_REQUEST ==>
      && code == CREATED
      && created == Some(User(newId, b.name.value, b.email.value, b.password.value, None))
      && db.users == old(db.users) + [created.value]
  {
    if db.FindUserByEmail(b.email.value).Some? {
      return BAD_REQUEST, None;
    }
    var u := User(newId, b.name.value, b.email.value, b.password.value, None);
    AppendUnique(db.users, u, UserId);
    db.SetUsers(db.users + [u]);
    code, created := CREATED, Some(u);
  }

  /** Because register refuses a taken email, it never introduces a second account
      for one address. */
  lemma RegisterKeepsEmailsUnique(users: seq<User>, u: User)
    requires EmailsUnique(users)
    requires IndexOf(users, UserEmail, u.email).None?
    ensures EmailsUnique(users + [u])
    ensures IndexOf(users + [u], UserEmail, u.email) == Some(|users|)
  {
    AppendUnique(users, u, UserEmail);
    IndexOfUnique(users + [u], UserEmail, u.email, |users|);
  }

  // ---------------------------------------------------------------------------
  // login

  /** The outcome of a login attempt. */
  datatype LoginOutcome = MissingCredentials | InvalidCredentials | LoggedIn(user: User)

  function LoginCode(o: LoginOutcome): nat {
    match o
    case MissingCredentials => BAD_REQUEST
    case InvalidCredentials => UNAUTHORIZED
    case LoggedIn(_) => OK
  }

  /** POST /api/auth/login. An absent or empty email or password is 400; an unknown
      email and a wrong password give the same 401 outcome, so a caller cannot tell
      which of the two it was. */
  function LoginResult(users: seq<User>, b: AccountBody, matchPassword: (string, string) -> bool): (o: LoginOutcome)
    ensures o.MissingCredentials? <==> b.email.None? || b.email.value == [] || b.password.None? || b.password.value == []
    ensures o.LoggedIn? <==>
      && !o.MissingCredentials?
      && (exists i :: 0 <= i < |users| && users[i].email == b.email.value
                    && IndexOf(users, UserEmail, b.email.value) == Some(i)
                    && matchPassword(users[i].password, b.password.value))
    ensures o.LoggedIn? ==> o.user in users && o.user.email == b.email.value
    ensures o.InvalidCredentials? ==>
      || IndexOf(users, UserEmail, b.email.value).None?
      || !matchPassword(users[IndexOf(users, UserEmail, b.email.value).value].password, b.password.value)
  {
    if b.email.None? || b.email.value == [] || b.password.None? || b.password.value == [] then
      MissingCredentials
    else
      match IndexOf(users, UserEmail, b.email.value)
      case None => InvalidCredentials
      case Some(i) =>
        if matchPassword(users[i].password, b.password.value) then LoggedIn(users[i]) else InvalidCredentials
  }

  /** Login never changes the database. */
  method Login(db: Database, b: AccountBody, matchPassword: (string, string) -> bool)
    returns (code: nat, outcome: LoginOutcome)
    ensures outcome == LoginResult(db.users, b, matchPassword) && code == LoginCode(outcome)
    ensures code == OK <==> outcome.LoggedIn?
  {
    outcome := LoginResult(db.users, b, matchPassword);
    code := LoginCode(outcome);
  }

  /** With a known email, a wrong password is reported exactly like an unknown email. */
  lemma SameAnswerForUnknownEmailAndWrongPassword(users: seq<User>, b: AccountBody, other: AccountBody,
                                                  matchPassword: (string, string) -> bool)
    requires b.email.Some? && b.email.value != [] && b.password.Some? && b.password.value != []
    requires other.email.Some? && other.email.value != [] && other.password.Some? && other.password.value != []
    requires IndexOf(users, UserEmail, b.email.value).None?
    requires var k := IndexOf(users, UserEmail, other.email.value);
      k.Some? && !matchPassword(users[k.value].password, other.password.value)
    ensures LoginResult(users, b, matchPassword) == LoginResult(users, other, matchPassword) == InvalidCredentials
  {
  }

  // ---------------------------------------------------------------------------
  // getMe, updateProfile, changePassword, updateSalary

  /** GET /api/auth/me. The `protect` middleware has loaded the requester's account. */
  method GetMe(db: Database, requester: Id) returns (code: nat, me: User)
    requires db.FindUser(requester).Some?
    ensures code == OK && me in db.users && me.id == requester
  {
    me := db.users[db.FindUser(requester).value];
    code := OK;
  }

  /** `findByIdAndUpdate` with `{ name, email }`: only those two fields, and only the
      ones sent (an absent field is dropped from the update). */
  function ProfileUpdated(u: User, b: AccountBody): (r: User)
    ensures r.id == u.id && r.password == u.password && r.monthlySalary == u.monthlySalary
    ensures r.name == (if b.name.Some? then b.name.value else u.name)
    ensures r.email == (if b.email.Some? then b.email.value else u.email)
    ensures b.name.None? && b.email.None? ==> r == u
  {
    u.(name := if b.name.Some? then b.name.value else u.name,
       email := if b.email.Some? then b.email.value else u.email)
  }

  /** Replacing one user by another with the same id keeps the users table valid. */
  lemma UserReplaceValid(users: seq<User>, k: nat, u: User)
    requires UsersValid(users) && k < |users| && users[k].id == u.id
    ensures UsersValid(users[k := u])
  {
    ReplaceUnique(users, k, u, UserId);
  }

  /** PUT /api/auth/updateprofile. */
  method UpdateProfile(db: Database, requester: Id, b: AccountBody) returns (code: nat, updated: User)
    requires db.Valid() && db.FindUser(requester).Some?
    modifies db
    ensures db.Valid()
    ensures db.clients == old(db.clients) && db.invoices == old(db.invoices) && db.expenses == old(db.expenses)
    ensures var k := old(db.FindUser(requester)).value;
      && code == OK && updated == ProfileUpdated(old(db.users)[k], b)
      && db.users == old(db.users)[k := updated]
  {
    var k := db.FindUser(requester).value;
    updated := ProfileUpdated(db.users[k], b);
    UserReplaceValid(db.users, k, updated);
    db.SetUsers(db.users[k := updated]);
    code := OK;
  }

  /** The profile update keeps one account per email exactly when no other
      account already holds the email it stores; nothing in the handler checks this. */
  lemma ProfileUpdateKeepsEmailsUnique(users: seq<User>, k: nat, b: AccountBody)
    requires EmailsUnique(users) && k < |users|
    ensures var v := ProfileUpdated(users[k], b);
      EmailsUnique(users[k := v]) <==> forall j :: 0 <= j < |users| && j != k ==> users[j].email != v.email
  {
    var v := ProfileUpdated(users[k], b);
    var t := users[k := v];
    if forall j :: 0 <= j < |users| && j != k ==> users[j].email != v.email {
      forall i, j | 0 <= i < j < |t| ensures UserEmail(t[i]) != UserEmail(t[j]) {
        if i != k && j != k {
          assert UserEmail(users[i]) != UserEmail(users[j]);
        }
      }
    } else {
      var j :| 0 <= j < |users| && j != k && users[j].email == v.email;
      assert t[j] == users[j] && t[k] == v;
      if j < k {
        assert UserEmail(t[j]) == UserEmail(t[k]);
      } else {
        assert UserEmail(t[k]) == UserEmail(t[j]);
      }
    }
  }

  /** PUT /api/auth/changepassword: 401 and no change when the current password does
      not match; otherwise the new password replaces it and nothing else changes. */
  method ChangePassword(db: Database, requester: Id, b: PasswordBody, matchPassword: (string, string) -> bool)
    returns (code: nat)
    requires db.Valid() && db.FindUser(requester).Some? && ChangePasswordValid(b)
    modifies db
    ensures db.Valid()
    ensures db.clients == old(db.clients) && db.invoices == old(db.invoices) && db.expenses == old(db.expenses)
    ensures var k := old(db.FindUser(requester)).value;
      var u := old(db.users)[k];
      && (code == UNAUTHORIZED <==> !matchPassword(u.password, b.currentPassword.value))
      && (code == UNAUTHORIZED ==> db.users == old(db.users))
      && (code != UNAUTHORIZED ==> code == OK && db.users == old(db.users)[k := u.(password := b.newPassword.value)])
  {
    var k := db.FindUser(requester).value;
    var u := db.users[k];
    if !matchPassword(u.password, b.currentPassword.value) {
      return UNAUTHORIZED;
    }
    var v := u.(password := b.newPassword.value);
    UserReplaceValid(db.users, k, v);
    db.SetUsers(db.users[k := v]);
    code := OK;
  }

  /** `typeof salary !== 'number' || salary < 0`. */
  predicate SalaryRejected(salary: Field<real>) {
    !salary.Given? || salary.value < 0.0
  }

  /** PUT /api/auth/updatesalary: 400 and no change for anything but a non-negative
      number; otherwise the salary is stored and returned. */
  method UpdateSalary(db: Database, requester: Id, salary: Field<real>) returns (code: nat, stored: Option<real>)
    requires db.Valid() && db.FindUser(requester).Some?
    modifies db
    ensures db.Valid()
    ensures db.clients == old(db.clients) && db.invoices == old(db.invoices) && db.expenses == old(db.expenses)
    ensures code == BAD_REQUEST <==> SalaryRejected(salary)
    ensures code == BAD_REQUEST ==> stored.None? && db.users == old(db.users)
    ensures code != BAD_REQUEST ==>
      var k := old(db.FindUser(requester)).value;
      && code == OK && stored == Some(salary.value) && salary.value >= 0.0
      && db.users == old(db.users)[k := old(db.users)[k].(monthlySalary := Some(salary.value))]
  {
    if SalaryRejected(salary) {
      return BAD_REQUEST, None;
    }
    var k := db.FindUser(requester).value;
    var v := db.users[k].(monthlySalary := Some(salary.value));
    UserReplaceValid(db.users, k, v);
    db.SetUsers(db.users[k := v]);
    code, stored := OK, Some(salary.value);
  }

  // ---------------------------------------------------------------------------
  // Route pipelines

  /** POST /register: 400 when the chain rejects, otherwise the sanitized body. */
  method PostRegister(db: Database, b: AccountBody, isEmail: string -> bool, normalize: string -> string, newId: Id)
    returns (code: nat, created: Option<User>)
    requires db.Valid() && db.FreshUserId(newId)
    modifies db
    ensures db.Valid()
    ensures !RegisterValid(b, isEmail) ==> code == BAD_REQUEST && created.None? && unchanged(db)
    ensures RegisterValid(b, isEmail) ==>
      && db.clients == old(db.clients) && db.invoices == old(db.invoices) && db.expenses == old(db.expenses)
      && (code == BAD_REQUEST <==> old(db.FindUserByEmail(normalize(b.email.value))).Some?)
      && (code == BAD_REQUEST ==> created.None? && db.users == old(db.users))
      && (code != BAD_REQUEST ==>
        && code == CREATED
        && created == Some(User(newId, Trim(b.name.value), normalize(b.email.value), b.password.value, None))
        && db.users == old(db.users) + [created.value])
  {
    if !RegisterValid(b, isEmail) {
      return BAD_REQUEST, None;
    }
    SanitizedRegisterIsClean(b, isEmail, normalize);
    code, created := Register(db, Sanitized(b, normalize), newId);
  }

  /** POST /login: the chain already refuses an empty password, so the handler's own
      400 is reached only for a body the chain let through with an empty email. */
  method PostLogin(db: Database, b: AccountBody, isEmail: string -> bool, normalize: string -> string,
                   matchPassword: (string, string) -> bool)
    returns (code: nat, outcome: Option<LoginOutcome>)
    ensures !LoginValid(b, isEmail) ==> code == BAD_REQUEST && outcome.None?
    ensures LoginValid(b, isEmail) ==>
      && outcome == Some(LoginResult(db.users, Sanitized(b, normalize), matchPassword))
      && code == LoginCode(outcome.value)
  {
    if !LoginValid(b, isEmail) {
      return BAD_REQUEST, None;
    }
    var o;
    code, o := Login(db, Sanitized(b, normalize), matchPassword);
    outcome := Some(o);
  }

  /** PUT /updateprofile. */
  method PutUpdateProfile(db: Database, requester: Id, b: AccountBody, isEmail: string -> bool,
                          normalize: string -> string)
    returns (code: nat, updated: Option<User>)
    requires db.Valid() && db.FindUser(requester).Some?
    modifies db
    ensures db.Valid()
    ensures !UpdateProfileValid(b, isEmail) ==> code == BAD_REQUEST && updated.None? && unchanged(db)
    ensures UpdateProfileValid(b, isEmail) ==>
      var k := old(db.FindUser(requester)).value;
      && db.clients == old(db.clients) && db.invoices == old(db.invoices) && db.expenses == old(db.expenses)
      && code == OK && updated == Some(ProfileUpdated(old(db.users)[k], Sanitized(b, normalize)))
      && db.users == old(db.users)[k := updated.value]
  {
    if !UpdateProfileValid(b, isEmail) {
      return BAD_REQUEST, None;
    }
    var u;
    code, u := UpdateProfile(db, requester, Sanitized(b, normalize));
    updated := Some(u);
  }

  /** PUT /changepassword. */
  method PutChangePassword(db: Database, requester: Id, b: PasswordBody, matchPassword: (string, string) -> bool)
    returns (code: nat)
    requires db.Valid() && db.FindUser(requester).Some?
    modifies db
    ensures db.Valid()
    ensures !ChangePasswordValid(b) ==> code == BAD_REQUEST && unchanged(db)
    ensures ChangePasswordValid(b) ==>
      var k := old(db.FindUser(requester)).value;
      var u := old(db.users)[k];
      && db.clients == old(db.clients) && db.invoices == old(db.invoices) && db.expenses == old(db.expenses)
      && (code == UNAUTHORIZED <==> !matchPassword(u.password, b.currentPassword.value))
      && (code == UNAUTHORIZED ==> db.users == old(db.users))
      && (code != UNAUTHORIZED ==> code == OK && db.users == old(db.users)[k := u.(password := b.newPassword.value)])
  {
    if !ChangePasswordValid(b) {
      return BAD_REQUEST;
    }
    code := ChangePassword(db, requester, b, matchPassword);
  }
}

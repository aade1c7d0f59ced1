/** client/src/redux/userSlice.ts: the signed-in identity, the loading and error
    flags, the salary and its allocation, and how each thunk phase changes them. */
module UserSlice {
  import opened Common
  import opened UiTypes
  import opened SliceOps

  /** The account fields a login, register or profile reply carries. */
  datatype UserPayload = UserPayload(id: string, email: string, name: string, monthlySalary: Option<real>)

  /** The thunks whose phases the slice handles. */
  datatype Thunk = LoginUser | RegisterUser | GetProfile | UpdateProfile | UpdateUserSalary

  /** The message each thunk rejects with when the thrown error has none. */
  function Fallback(t: Thunk): (r: string)
    ensures r != []
  {
    match t
    case LoginUser => "Login failed"
    case RegisterUser => "Registration failed"
    case GetProfile => "Failed to get profile"
    case UpdateProfile => "Failed to update profile"
    case UpdateUserSalary => "Failed to update salary"
  }

  /** `monthlySalary ?? 0`. */
  function SalaryOrZero(s: Option<real>): (r: real)
    ensures s.Some? ==> r == s.value
    ensures s.None? ==> r == 0.0
  {
    if s.Some? then s.value else 0.0
  }

  class UserState {
    var id: string
    var email: string
    var name: string
    var isAuthenticated: bool
    var loading: bool
    var error: Option<string>
    var monthlySalary: real
    var salaryAllocation: Allocation

    /** A signed-out state never carries an account id. */
    ghost predicate Valid()
      reads this
    {
      !isAuthenticated ==> id == []
    }

    /** `initialState`: signed out, salary 0 and the 50/30/20 split. */
    constructor ()
      ensures Valid()
      ensures id == [] && email == [] && name == [] && !isAuthenticated
      ensures !loading && error.None? && monthlySalary == 0.0 && salaryAllocation == DefaultAllocation
    {
      id, email, name := [], [], [];
      isAuthenticated, loading, error := false, false, None;
      monthlySalary, salaryAllocation := 0.0, DefaultAllocation;
    }

    /** `logout` clears the identity and the error; salary, allocation and the
        loading flag are kept. Removing the stored token is the api service's part. */
    method Logout()
      modifies this
      ensures Valid()
      ensures id == [] && email == [] && name == [] && !isAuthenticated && error.None?
      ensures loading == old(loading) && monthlySalary == old(monthlySalary)
      ensures salaryAllocation == old(salaryAllocation)
    {
      id, email, name := [], [], [];
      isAuthenticated, error := false, None;
    }

    method ClearError()
      requires Valid()
      modifies this
      ensures Valid() && error.None?
      ensures id == old(id) && email == old(email) && name == old(name)
      ensures isAuthenticated == old(isAuthenticated) && loading == old(loading)
      ensures monthlySalary == old(monthlySalary) && salaryAllocation == old(salaryAllocation)
    {
      error := None;
    }

    /** `setSalaryAllocation` and `updateSalaryAllocation.fulfilled` store the
        allocation as given. */
    method SetSalaryAllocation(a: Allocation)
      requires Valid()
      modifies this
      ensures Valid() && salaryAllocation == a
      ensures id == old(id) && email == old(email) && name == old(name)
      ensures isAuthenticated == old(isAuthenticated) && loading == old(loading) && error == old(error)
      ensures monthlySalary == old(monthlySalary)
    {
      salaryAllocation := a;
    }

    /** Every pending case raises `loading`; all but the salary update also clear
        the error. */
    method Pending(t: Thunk)
      requires Valid()
      modifies this
      ensures Valid() && loading
      ensures error == (if t == UpdateUserSalary then old(error) else None)
      ensures id == old(id) && email == old(email) && name == old(name)
      ensures isAuthenticated == old(isAuthenticated)
      ensures monthlySalary == old(monthlySalary) && salaryAllocation == old(salaryAllocation)
    {
      loading := true;
      if t != UpdateUserSalary {
        error := None;
      }
    }

    /** Every rejected case lowers `loading` and records `error.message` or the
        thunk's fallback; the identity is left as it was. */
    method Failed(t: Thunk, thrown: string)
      requires Valid()
      modifies this
      ensures Valid() && !loading && error == Some(OrElse(thrown, Fallback(t)))
      ensures id == old(id) && email == old(email) && name == old(name)
      ensures isAuthenticated == old(isAuthenticated)
      ensures monthlySalary == old(monthlySalary) && salaryAllocation == old(salaryAllocation)
    {
      loading, error := false, Some(OrElse(thrown, Fallback(t)));
    }

    /** `loginUser`, `registerUser` and `getProfile` fulfilled: the payload's
        identity, signed in, its salary or 0. */
    method SignedIn(p: UserPayload)
      requires Valid()
      modifies this
      ensures Valid() && isAuthenticated && !loading && error.None?
      ensures id == p.id && email == p.email && name == p.name
      ensures monthlySalary == SalaryOrZero(p.monthlySalary)
      ensures salaryAllocation == old(salaryAllocation)
    {
      loading := false;
      id, email, name := p.id, p.email, p.name;
      isAuthenticated := true;
      monthlySalary := SalaryOrZero(p.monthlySalary);
      error := None;
    }

    /** `updateProfile.fulfilled`: name and email only. */
    method ProfileUpdated(newName: string, newEmail: string)
      requires Valid()
      modifies this
      ensures Valid() && !loading && error.None?
      ensures name == newName && email == newEmail
      ensures id == old(id) && isAuthenticated == old(isAuthenticated)
      ensures monthlySalary == old(monthlySalary) && salaryAllocation == old(salaryAllocation)
    {
      loading := false;
      name, email := newName, newEmail;
      error := None;
    }

    /** `updateUserSalary.fulfilled`: the stored salary; the error is not cleared. */
    method SalaryUpdated(salary: real)
      requires Valid()
      modifies this
      ensures Valid() && !loading && monthlySalary == salary && error == old(error)
      ensures id == old(id) && email == old(email) && name == old(name)
      ensures isAuthenticated == old(isAuthenticated) && salaryAllocation == old(salaryAllocation)
    {
      loading := false;
      monthlySalary := salary;
    }
  }
}

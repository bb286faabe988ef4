/**
 * The authentication state: five reducers over one mutable record. Writing
 * and removing the token in browser storage is not modelled.
 */
module AuthSlice {
  import opened Wrappers

  datatype User = User(id: string, email: string, name: string)

  /** The `auth` slice state; every method is one reducer of `authSlice`. */
  class AuthStore {
    var isAuth: bool
    var user: Option<User>
    var token: Option<string>
    var loading: bool
    var error: Option<string>

    /** An authenticated state always has a user and a token. */
    predicate Valid()
      reads this
    {
      isAuth ==> user.Some? && token.Some?
    }

    /** `initialState`: signed out, no user, no token, not loading, no error. */
    constructor ()
      ensures Valid()
      ensures !isAuth && user == None && token == None && !loading && error == None
    {
      isAuth := false;
      user := None;
      token := None;
      loading := false;
      error := None;
    }

    /** `loginStart`: loading, error cleared, nothing else touched. */
    method LoginStart()
      requires Valid()
      modifies this
      ensures Valid()
      ensures loading && error == None
      ensures unchanged(this`isAuth, this`user, this`token)
    {
      loading := true;
      error := None;
    }

    /** `loginSuccess`: signed in as the payload's user with its token; loading ends; error untouched. */
    method LoginSuccess(u: User, t: string)
      requires Valid()
      modifies this
      ensures Valid()
      ensures isAuth && user == Some(u) && token == Some(t) && !loading
      ensures unchanged(this`error)
    {
      isAuth := true;
      user := Some(u);
      token := Some(t);
      loading := false;
    }

    /** `loginError`: signed out with the message; loading ends; user and token untouched. */
    method LoginError(message: string)
      requires Valid()
      modifies this
      ensures Valid()
      ensures !isAuth && !loading && error == Some(message)
      ensures unchanged(this`user, this`token)
    {
      loading := false;
      error := Some(message);
      isAuth := false;
    }

    /** `logout`: signed out with user, token and error cleared; loading untouched. */
    method Logout()
      requires Valid()
      modifies this
      ensures Valid()
      ensures !isAuth && user == None && token == None && error == None
      ensures unchanged(this`loading)
    {
      isAuth := false;
      user := None;
      token := None;
      error := None;
    }

    /** `restoreSession`: signed in as the payload's user with its token; loading and error untouched. */
    method RestoreSession(u: User, t: string)
      requires Valid()
      modifies this
      ensures Valid()
      ensures isAuth && user == Some(u) && token == Some(t)
      ensures unchanged(this`loading, this`error)
    {
      isAuth := true;
      user := Some(u);
      token := Some(t);
    }
  }

  /**
   * The invariant is all a caller can rely on: a failed login after a
   * successful one leaves the old user and token behind while signed out.
   */
  method FailedLoginKeepsOldUser(u: User, t: string, message: string) returns (s: AuthStore)
    ensures !s.isAuth && s.user == Some(u) && s.token == Some(t)
    ensures s.Valid()
  {
    s := new AuthStore();
    s.LoginStart();
    s.LoginSuccess(u, t);
    s.LoginStart();
    s.LoginError(message);
  }
}

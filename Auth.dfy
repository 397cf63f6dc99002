/**
 * The session store (`src/store/authStore.ts`): `user`, `token` and `isAuthenticated`, kept beside
 * the "token" and "user" entries of device storage.
 */
module Auth {
  import opened Wrappers
  import opened Domain

  datatype User = User(id: string, name: string, email: string)

  /** `!!token`: a missing or empty token is falsy. */
  predicate Truthy(token: Option<string>) {
    token.Some? && token.value != ""
  }

  class AuthStore {
    var user: Option<User>
    var token: Option<string>
    var isAuthenticated: bool
    /** The storage entries "token" and "user"; `None` when absent. */
    var storedToken: Option<string>
    var storedUser: Option<User>

    /** The session is signed in exactly when it holds a truthy token, and a signed-in session
        holds the stored token. */
    predicate Valid()
      reads this
    {
      (isAuthenticated <==> Truthy(token)) && (isAuthenticated ==> token == storedToken)
    }

    /** The initial state read from storage. */
    constructor (storedToken: Option<string>, storedUser: Option<User>)
      ensures this.storedToken == storedToken && this.storedUser == storedUser
      ensures token == storedToken && user == storedUser
      ensures isAuthenticated <==> Truthy(storedToken)
      ensures Valid()
    {
      this.storedToken := storedToken;
      this.storedUser := storedUser;
      user := storedUser;
      token := storedToken;
      isAuthenticated := Truthy(storedToken);
    }

    /** `setAuth`: persist both entries and mark the session signed in. */
    method SetAuth(u: User, t: string)
      modifies this
      ensures storedToken == Some(t) && storedUser == Some(u)
      ensures user == Some(u) && token == Some(t) && isAuthenticated
      ensures Valid() <==> t != ""
    {
      storedToken := Some(t);
      storedUser := Some(u);
      user, token, isAuthenticated := Some(u), Some(t), true;
    }

    method SignOut()
      modifies this
      ensures storedToken == None && storedUser == None
      ensures user == None && token == None && !isAuthenticated
      ensures Valid()
    {
      storedToken := None;
      storedUser := None;
      user, token, isAuthenticated := None, None, false;
    }

    /** `logout`: whatever the server answers, both entries are removed and the session ends. */
    method Logout(serverAnswer: Result<bool, Thrown>)
      modifies this
      ensures storedToken == None && storedUser == None
      ensures user == None && token == None && !isAuthenticated
      ensures Valid()
    {
      SignOut();
    }

    /** `checkAuth`: without a stored token the session ends and storage is left alone; with one,
        a successful profile lookup stores the user and signs in, and a failed one clears both
        entries and ends the session. */
    method CheckAuth(getMe: Result<User, Thrown>)
      modifies this
      ensures !Truthy(old(storedToken)) ==>
        user == None && token == None && !isAuthenticated
        && storedToken == old(storedToken) && storedUser == old(storedUser)
      ensures Truthy(old(storedToken)) && getMe.Success? ==>
        user == Some(getMe.value) && token == old(storedToken) && isAuthenticated
        && storedToken == old(storedToken) && storedUser == Some(getMe.value)
      ensures Truthy(old(storedToken)) && getMe.Failure? ==>
        user == None && token == None && !isAuthenticated && storedToken == None && storedUser == None
      ensures Valid()
    {
      var t := storedToken;
      if !Truthy(t) {
        user, token, isAuthenticated := None, None, false;
        return;
      }
      match getMe {
        case Success(u) =>
          storedUser := Some(u);
          user, token, isAuthenticated := Some(u), t, true;
        case Failure(_) =>
          SignOut();
      }
    }
  }
}

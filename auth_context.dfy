/**
 * `AuthProvider`: the in-memory session (`user`, `loading`) and its
 * transitions over the persisted store. A 401 seen by the HTTP client sends
 * the browser to `/login`, which reloads the application: `Reload` models
 * that as the in-memory state starting over and booting again.
 */
module AuthContext {
  import opened Wrappers
  import opened Roles
  import opened Api

  class AuthProvider {
    const store: SessionStore
    var user: Option<User>
    var loading: bool

    /** Mounting the provider: no user yet, verification pending. */
    constructor (store: SessionStore)
      ensures this.store == store
      ensures user == None && loading
    {
      this.store := store;
      user := None;
      loading := true;
    }

    /** `isAuthenticated: !!user`. */
    function IsAuthenticated(): (b: bool)
      reads this
      ensures b <==> user != None
    {
      user.Some?
    }

    /** Whenever a user is in memory, the store holds that same user and a token. */
    predicate Agrees()
      reads this, store
    {
      user.Some? ==> store.user == user && store.token.Some?
    }

    /** `storedToken && storedUser`: both keys present, the token non-empty. */
    predicate HasStoredSession()
      reads store
    {
      store.token.Some? && store.token.value != "" && store.user.Some?
    }

    /**
     * `loadStoredData`. With a stored session the token is verified: on
     * success the stored user is adopted and the store is left alone; on any
     * failure both keys are removed. Without a stored session nothing is
     * called and a lone key stays where it is. `loading` ends false on every
     * path. (A 401 here also reloads the page; the reload boots again on the
     * now-empty store and lands in the same state, so it is not repeated.)
     */
    method Boot(verify: Result<(), HttpError>)
      modifies this, store
      ensures !loading
      ensures old(HasStoredSession()) && verify.Success? ==>
        user == old(store.user) && store.token == old(store.token) && store.user == old(store.user)
      ensures old(HasStoredSession()) && verify.Failure? ==> store.IsEmpty() && user == old(user)
      ensures !old(HasStoredSession()) ==>
        user == old(user) && store.token == old(store.token) && store.user == old(store.user)
      ensures old(store.Paired()) ==> store.Paired()
      ensures old(user) == None ==> Agrees()
    {
      if HasStoredSession() {
        var r, _ := store.VerifyToken(verify);
        if r.Success? {
          user := store.user;
        } else {
          store.Logout();
        }
      }
      loading := false;
    }

    /** The page reload that follows a 401: in-memory state starts over and boot runs again. */
    method Reload()
      requires store.IsEmpty()
      modifies this, store
      ensures user == None && !loading && store.IsEmpty()
    {
      user := None;
      loading := true;
      // The store is empty, so boot makes no verification call and this outcome is never read.
      Boot(Failure(NoResponse(false)));
    }

    /**
     * `signIn`. On success both keys are written and the in-memory user is
     * the returned one. On failure the error is rethrown unchanged and
     * `signIn` writes nothing; but a 401 from `/auth/login` goes through the
     * response interceptor, which empties the store and reloads the page.
     */
    method SignIn(login: Result<LoginData, HttpError>) returns (r: Result<(), HttpError>)
      modifies this, store
      ensures r.Failure? <==> login.Failure?
      ensures r.Failure? ==> r.error == login.error
      ensures login.Success? ==>
        && store.token == Some(login.value.token) && store.user == Some(login.value.user)
        && user == Some(login.value.user) && loading == old(loading)
      ensures login.Failure? && !IsUnauthorized(login.error) ==>
        user == old(user) && loading == old(loading)
        && store.token == old(store.token) && store.user == old(store.user)
      ensures login.Failure? && IsUnauthorized(login.error) ==>
        user == None && !loading && store.IsEmpty()
      ensures old(store.Paired()) ==> store.Paired()
      ensures old(Agrees()) ==> Agrees()
    {
      var response, reload := store.Login(login);
      if response.Success? {
        store.token := Some(response.value.token);
        store.user := Some(response.value.user);
        user := Some(response.value.user);
        r := Success(());
      } else {
        r := Failure(response.error);
        if reload {
          Reload();
        }
      }
    }

    /** `signOut`: both keys removed, no user. Its final state does not depend on the old one. */
    method SignOut()
      modifies this, store
      ensures store.IsEmpty() && user == None && loading == old(loading)
      ensures !IsAuthenticated() && Agrees() && store.AuthorizationHeader() == None
    {
      store.Logout();
      user := None;
    }

    /**
     * Any other request made on behalf of a page. The outcome reaches the
     * page unchanged; a 401 additionally ends the session and reloads.
     */
    method ApiCall<T>(response: Result<T, HttpError>) returns (r: Result<T, HttpError>)
      modifies this, store
      ensures r == response
      ensures response.Failure? && IsUnauthorized(response.error) ==>
        user == None && !loading && store.IsEmpty()
      ensures !(response.Failure? && IsUnauthorized(response.error)) ==>
        user == old(user) && loading == old(loading)
        && store.token == old(store.token) && store.user == old(store.user)
    {
      var reload;
      r, reload := store.Send(response);
      if reload {
        Reload();
      }
    }
  }

  /**
   * A session's life from a cold start: boot on what the browser kept,
   * then sign in. Whatever was stored, a successful sign-in leaves the
   * store and the in-memory state agreeing, with the header carrying the
   * new token.
   */
  method StartAndSignIn(token: Option<string>, stored: Option<User>, verify: Result<(), HttpError>,
                        login: LoginData) returns (auth: AuthProvider)
    ensures auth.IsAuthenticated() && auth.user == Some(login.user) && !auth.loading
    ensures auth.Agrees() && auth.store.Paired()
    ensures auth.store.AuthorizationHeader().Some? <==> login.token != ""
  {
    var store := new SessionStore(token, stored);
    auth := new AuthProvider(store);
    auth.Boot(verify);
    var _ := auth.SignIn(Success(login));
  }

  /** Boot on a stored session whose token is rejected ends signed out with an empty store. */
  method BootRejected(token: string, stored: User, e: HttpError) returns (auth: AuthProvider)
    requires token != ""
    ensures !auth.IsAuthenticated() && !auth.loading && auth.store.IsEmpty()
  {
    var store := new SessionStore(Some(token), Some(stored));
    auth := new AuthProvider(store);
    auth.Boot(Failure(e));
  }
}

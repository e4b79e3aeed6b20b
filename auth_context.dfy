/**
 * The authentication context of src/contexts/AuthContext.tsx: the user the
 * application believes is signed in, the loading flag of the start-up
 * check, the redirect rule between public and protected pages, and the
 * pending-approval handling of login and registration. Navigation is
 * returned as the path the router is sent to.
 */
module AuthContext {
  import opened Common
  import opened Http
  import opened Auth

  const PublicPaths: seq<string> := ["/login", "/register"]
  const LoginPath: string := "/login"
  const HomePath: string := "/"
  const PendingApproval: string := "PENDING_APPROVAL"

  /**
   * The redirect effect: nothing while loading; a visitor without a user on
   * a protected page goes to the login page, a signed-in user on a public
   * page goes home, and every other case stays put.
   */
  function Redirect(user: Option<User>, isLoading: bool, pathname: string): (r: Option<string>)
    ensures isLoading ==> r == None
    ensures !isLoading && user.None? && pathname !in PublicPaths ==> r == Some(LoginPath)
    ensures !isLoading && user.Some? && pathname in PublicPaths ==> r == Some(HomePath)
    ensures r.Some? <==> !isLoading && (user.None? <==> pathname !in PublicPaths)
  {
    if isLoading then None
    else if user.None? && pathname !in PublicPaths then Some(LoginPath)
    else if user.Some? && pathname in PublicPaths then Some(HomePath)
    else None
  }

  /** Following a redirect lands on a page that asks for no further redirect: the rule never loops. */
  lemma RedirectSettles(user: Option<User>, pathname: string)
    ensures var r := Redirect(user, false, pathname);
      r.Some? ==> Redirect(user, false, r.value) == None && r.value != pathname
  {
  }

  /** The state of `AuthProvider` and the session store it calls. */
  class AuthProvider {
    const auth: AuthStorage
    var user: Option<User>
    var isLoading: bool

    /** The first render: no user yet, the start-up check pending. */
    constructor(auth: AuthStorage)
      ensures this.auth == auth && user == None && isLoading
    {
      this.auth := auth;
      user := None;
      isLoading := true;
    }

    /** `isAuthenticated: !!user`. */
    predicate IsAuthenticated()
      reads this
    {
      user.Some?
    }

    /**
     * `checkAuth`: with a stored token and a stored user, the server is
     * asked who the user is and its answer (or no user, on an error) is
     * taken; without them the user is left as it was. Loading ends on every
     * path, and the stored session is never cleared here.
     */
    method CheckAuth(reply: Reply<User>)
      modifies this`user, this`isLoading
      ensures !isLoading
      ensures Truthy(auth.StoredToken()) && auth.StoredUser().Some? ==>
        user == (if AuthFetch(reply).Success? then Some(AuthFetch(reply).value) else None)
      ensures !(Truthy(auth.StoredToken()) && auth.StoredUser().Some?) ==> user == old(user)
    {
      var token := auth.StoredToken();
      var storedUser := auth.StoredUser();
      if Truthy(token) && storedUser.Some? {
        var current := auth.GetCurrentUser(reply);
        if current.Success? {
          user := Some(current.value);
        } else {
          user := None;
        }
      }
      isLoading := false;
    }

    /**
     * `login`: a failed call returns its error; a reply that awaits approval
     * returns "PENDING_APPROVAL" and leaves the user as it was; any other
     * reply becomes the user, whether or not a session was persisted.
     */
    method Login(reply: Reply<AuthResponse>) returns (error: Option<string>)
      modifies this`user, auth`token, auth`userText
      ensures AuthFetch(reply).Failure? ==> error == Some(AuthFetch(reply).error) && user == old(user)
      ensures AuthFetch(reply).Success? && IsTrue(AuthFetch(reply).value.pendingApproval) ==>
        error == Some(PendingApproval) && user == old(user)
      ensures AuthFetch(reply).Success? && !IsTrue(AuthFetch(reply).value.pendingApproval) ==>
        error == None && user == Some(AuthFetch(reply).value.user)
      ensures var r := AuthFetch(reply);
        if r.Success? && ShouldPersist(r.value)
        then auth.token == r.value.token && auth.userText == Some(UserJson(r.value.user))
        else auth.token == old(auth.token) && auth.userText == old(auth.userText)
    {
      var r := auth.Login(reply);
      error := Settle(r);
    }

    /** `register`: the same outcomes as `login`. */
    method Register(reply: Reply<AuthResponse>) returns (error: Option<string>)
      modifies this`user, auth`token, auth`userText
      ensures AuthFetch(reply).Failure? ==> error == Some(AuthFetch(reply).error) && user == old(user)
      ensures AuthFetch(reply).Success? && IsTrue(AuthFetch(reply).value.pendingApproval) ==>
        error == Some(PendingApproval) && user == old(user)
      ensures AuthFetch(reply).Success? && !IsTrue(AuthFetch(reply).value.pendingApproval) ==>
        error == None && user == Some(AuthFetch(reply).value.user)
      ensures var r := AuthFetch(reply);
        if r.Success? && ShouldPersist(r.value)
        then auth.token == r.value.token && auth.userText == Some(UserJson(r.value.user))
        else auth.token == old(auth.token) && auth.userText == old(auth.userText)
    {
      var r := auth.Register(reply);
      error := Settle(r);
    }

    /** What `login` and `register` do with the call's outcome. */
    method Settle(r: Result<AuthResponse, string>) returns (error: Option<string>)
      modifies this`user
      ensures r.Failure? ==> error == Some(r.error) && user == old(user)
      ensures r.Success? && IsTrue(r.value.pendingApproval) ==> error == Some(PendingApproval) && user == old(user)
      ensures r.Success? && !IsTrue(r.value.pendingApproval) ==> error == None && user == Some(r.value.user)
    {
      if r.Failure? {
        return Some(r.error);
      }
      if IsTrue(r.value.pendingApproval) {
        return Some(PendingApproval);
      }
      user := Some(r.value.user);
      error := None;
    }

    /** `logout`: the session store is cleared, the user forgotten, and the router sent to the login page. */
    method Logout() returns (target: string)
      modifies this`user, auth`token, auth`userText
      ensures user == None && !IsAuthenticated()
      ensures auth.token == None && auth.userText == None
      ensures target == LoginPath && Redirect(user, false, target) == None
    {
      var _ := auth.Logout();
      user := None;
      target := LoginPath;
    }
  }
}

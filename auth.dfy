/**
 * The session store of src/lib/auth.ts: the token and the user kept under
 * two keys of the browser's local storage, the rule that decides whether a
 * login or registration is persisted, logout, and the guards of the calls
 * that need a token. Server replies are inputs.
 */
module Auth {
  import opened Common
  import opened Http

  datatype User = User(
    id: string,
    email: string,
    name: string,
    role: string,
    avatarUrl: Option<string>,
    isActive: bool,
    isApproved: bool,
    createdAt: string)

  /** The body of a login, register or refresh reply. The token is absent for an account awaiting approval. */
  datatype AuthResponse = AuthResponse(
    user: User,
    token: Option<string>,
    expiresAt: string,
    pendingApproval: Option<bool>)

  /** The text under the user key: a user written by this module, the empty string, or text that does not parse. */
  datatype UserText = UserJson(user: User) | EmptyText | NotJson

  const TokenKey: string := "auth_token"
  const UserKey: string := "auth_user"
  const NotAuthenticated: string := "Not authenticated"

  /** `getStoredToken` over the token key's value: nothing outside a browser. */
  function ReadToken(hasWindow: bool, token: Option<string>): (r: Option<string>)
    ensures !hasWindow ==> r == None
    ensures hasWindow ==> r == token
  {
    if hasWindow then token else None
  }

  /**
   * `getStoredUser` over the user key's value: the stored user, or nothing
   * outside a browser, for a missing or empty entry, or for text that does
   * not parse.
   */
  function ReadUser(hasWindow: bool, text: Option<UserText>): (r: Option<User>)
    ensures r.Some? <==> hasWindow && text.Some? && text.value.UserJson?
    ensures r.Some? ==> r.value == text.value.user
  {
    if hasWindow && text.Some? && text.value.UserJson? then Some(text.value.user) else None
  }

  /** `isAuthenticated`: `!!(token && user)`. */
  predicate Authenticated(hasWindow: bool, token: Option<string>, text: Option<UserText>)
  {
    Truthy(ReadToken(hasWindow, token)) && ReadUser(hasWindow, text).Some?
  }

  /** The string `localStorage.setItem` stores for a token value (`undefined` is coerced to text). */
  function TokenText(token: Option<string>): (r: string)
    ensures token.Some? ==> r == token.value
  {
    if token.Some? then token.value else "undefined"
  }

  /** The test in `register` and `login`: persist unless approval is pending, and only with a token. */
  predicate ShouldPersist(resp: AuthResponse)
  {
    !IsTrue(resp.pendingApproval) && Truthy(resp.token)
  }

  /** What a browser reads back after `storeAuth(t, u)`: that token and that user. */
  lemma StoredSessionReadsBack(t: string, u: User)
    ensures ReadToken(true, Some(t)) == Some(t)
    ensures ReadUser(true, Some(UserJson(u))) == Some(u)
    ensures Authenticated(true, Some(t), Some(UserJson(u))) <==> t != ""
  {
  }

  /** A persisted login or registration always leaves the browser authenticated as the reply's user. */
  lemma PersistedSessionAuthenticates(resp: AuthResponse)
    requires ShouldPersist(resp)
    ensures Authenticated(true, Some(resp.token.value), Some(UserJson(resp.user)))
    ensures ReadUser(true, Some(UserJson(resp.user))) == Some(resp.user)
  {
  }

  /** An account awaiting approval is never persisted, whatever else the reply carries. */
  lemma PendingNeverPersists(resp: AuthResponse)
    requires IsTrue(resp.pendingApproval)
    ensures !ShouldPersist(resp)
  {
  }

  /** The two local-storage keys and the calls of src/lib/auth.ts that use them. */
  class AuthStorage {
    const hasWindow: bool
    var token: Option<string>
    var userText: Option<UserText>

    constructor(hasWindow: bool, token: Option<string>, userText: Option<UserText>)
      ensures this.hasWindow == hasWindow && this.token == token && this.userText == userText
    {
      this.hasWindow := hasWindow;
      this.token := token;
      this.userText := userText;
    }

    function StoredToken(): Option<string>
      reads this
    {
      ReadToken(hasWindow, token)
    }

    function StoredUser(): Option<User>
      reads this
    {
      ReadUser(hasWindow, userText)
    }

    /** `isAuthenticated()`. */
    predicate IsAuthenticated()
      reads this
    {
      Authenticated(hasWindow, token, userText)
    }

    /** `storeAuth`: writes both keys. */
    method StoreAuth(t: string, u: User)
      modifies this`token, this`userText
      ensures token == Some(t) && userText == Some(UserJson(u))
    {
      token := Some(t);
      userText := Some(UserJson(u));
    }

    /** `clearAuth`: removes both keys. */
    method ClearAuth()
      modifies this`token, this`userText
      ensures token == None && userText == None
      ensures !IsAuthenticated()
    {
      token := None;
      userText := None;
    }

    /** The part `register` and `login` share after the fetch: persist the session unless approval is pending. */
    method PersistUnlessPending(resp: AuthResponse)
      modifies this`token, this`userText
      ensures ShouldPersist(resp) ==> token == resp.token && userText == Some(UserJson(resp.user))
      ensures !ShouldPersist(resp) ==> token == old(token) && userText == old(userText)
    {
      if ShouldPersist(resp) {
        StoreAuth(resp.token.value, resp.user);
      }
    }

    /** `register`: the reply through `authFetch`; a success is persisted unless approval is pending. */
    method Register(reply: Reply<AuthResponse>) returns (r: Result<AuthResponse, string>)
      modifies this`token, this`userText
      ensures r == AuthFetch(reply)
      ensures r.Success? && ShouldPersist(r.value) ==>
        token == r.value.token && userText == Some(UserJson(r.value.user))
      ensures !(r.Success? && ShouldPersist(r.value)) ==>
        token == old(token) && userText == old(userText)
    {
      r := AuthFetch(reply);
      if r.Success? {
        PersistUnlessPending(r.value);
      }
    }

    /** `login`: the same rule as `register`. */
    method Login(reply: Reply<AuthResponse>) returns (r: Result<AuthResponse, string>)
      modifies this`token, this`userText
      ensures r == AuthFetch(reply)
      ensures r.Success? && ShouldPersist(r.value) ==>
        token == r.value.token && userText == Some(UserJson(r.value.user))
      ensures !(r.Success? && ShouldPersist(r.value)) ==>
        token == old(token) && userText == old(userText)
    {
      r := AuthFetch(reply);
      if r.Success? {
        PersistUnlessPending(r.value);
      }
    }

    /**
     * `logout`: tells the server only when a token is stored, ignores how
     * that call ends, and clears both keys in every case.
     */
    method Logout() returns (calledServer: bool)
      modifies this`token, this`userText
      ensures calledServer == Truthy(old(StoredToken()))
      ensures token == None && userText == None
    {
      calledServer := Truthy(StoredToken());
      ClearAuth();
    }

    /** `getCurrentUser`: refuses without a token; otherwise the reply through `authFetch`. */
    method GetCurrentUser(reply: Reply<User>) returns (r: Result<User, string>)
      ensures !Truthy(StoredToken()) ==> r == Failure(NotAuthenticated)
      ensures Truthy(StoredToken()) ==> r == AuthFetch(reply)
    {
      var t := StoredToken();
      if !Truthy(t) {
        return Failure(NotAuthenticated);
      }
      r := AuthFetch(reply);
    }

    /**
     * `refreshToken`: refuses without a token; otherwise stores whatever
     * session the server returns, without the pending-approval test.
     */
    method RefreshToken(reply: Reply<AuthResponse>) returns (r: Result<AuthResponse, string>)
      modifies this`token, this`userText
      ensures !Truthy(old(StoredToken())) ==>
        r == Failure(NotAuthenticated) && token == old(token) && userText == old(userText)
      ensures Truthy(old(StoredToken())) ==> r == AuthFetch(reply)
      ensures r.Success? ==> token == Some(TokenText(r.value.token)) && userText == Some(UserJson(r.value.user))
      ensures r.Failure? ==> token == old(token) && userText == old(userText)
    {
      var t := StoredToken();
      if !Truthy(t) {
        return Failure(NotAuthenticated);
      }
      r := AuthFetch(reply);
      if r.Success? {
        StoreAuth(TokenText(r.value.token), r.value.user);
      }
    }
  }
}

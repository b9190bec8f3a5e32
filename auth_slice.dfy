/**
 * The session state: the signed-in user, the bearer token, the authenticated
 * flag, a loading flag and the last error. The initial state is read from
 * durable storage; the reducer cases are methods and each thunk drives the
 * backend through them.
 */
module AuthSlice {
  import opened Wrappers
  import opened Types
  import opened Text
  import opened Seqs
  import opened MockApi
  import opened Thunks

  const LoginFallback := "Login failed"
  const RegisterFallback := "Registration failed"
  const LogoutFallback := "Logout failed"
  const GetCurrentUserFallback := "Failed to get current user"

  class AuthState {
    var user: Option<AuthUser>
    var token: Option<string>
    var isAuthenticated: bool
    var loading: bool
    var error: Option<string>

    /**
     * `initialState`: the stored user and token as they are, authenticated
     * exactly when a non-empty token is stored.
     */
    constructor (store: Store)
      ensures user == store.storedUser && token == store.storedToken
      ensures isAuthenticated <==> Truthy(store.storedToken)
      ensures !loading && error == None
    {
      user := store.storedUser;
      token := store.storedToken;
      isAuthenticated := Truthy(store.storedToken);
      loading := false;
      error := None;
    }

    /** The pending case of login, register and getCurrentUser. */
    method OnPending()
      modifies this
      ensures loading && error == None
      ensures user == old(user) && token == old(token) && isAuthenticated == old(isAuthenticated)
    {
      loading := true;
      error := None;
    }

    /** `logout.pending` raises the flag and, unlike the others, keeps the error. */
    method OnLogoutPending()
      modifies this
      ensures loading && error == old(error)
      ensures user == old(user) && token == old(token) && isAuthenticated == old(isAuthenticated)
    {
      loading := true;
    }

    /** The rejected case of login, register and logout: the session is left as it was. */
    method OnRejected(payload: string)
      modifies this
      ensures !loading && error == Some(payload)
      ensures user == old(user) && token == old(token) && isAuthenticated == old(isAuthenticated)
    {
      loading := false;
      error := Some(payload);
    }

    /** `login.fulfilled` and `register.fulfilled`: the payload's session becomes the current one. */
    method OnSessionFulfilled(payload: AuthPayload)
      modifies this
      ensures !loading && user == Some(payload.user) && token == Some(payload.token) && isAuthenticated
      ensures error == old(error)
    {
      loading := false;
      user := Some(payload.user);
      token := Some(payload.token);
      isAuthenticated := true;
    }

    /** `logout.fulfilled`: the in-memory session is cleared. */
    method OnLogoutFulfilled()
      modifies this
      ensures !loading && user == None && token == None && !isAuthenticated
      ensures error == old(error)
    {
      loading := false;
      user := None;
      token := None;
      isAuthenticated := false;
    }

    /** `getCurrentUser.fulfilled`: the user is restored and the flag raised; the token is left as it was. */
    method OnGetCurrentUserFulfilled(payload: AuthUser)
      modifies this
      ensures !loading && user == Some(payload) && isAuthenticated
      ensures token == old(token) && error == old(error)
    {
      loading := false;
      user := Some(payload);
      isAuthenticated := true;
    }

    /** `getCurrentUser.rejected`: the whole session is cleared and the error recorded. */
    method OnGetCurrentUserRejected(payload: string)
      modifies this
      ensures !loading && user == None && token == None && !isAuthenticated && error == Some(payload)
    {
      loading := false;
      user := None;
      token := None;
      isAuthenticated := false;
      error := Some(payload);
    }

    method ClearError()
      modifies this
      ensures error == None
      ensures user == old(user) && token == old(token) && isAuthenticated == old(isAuthenticated)
      ensures loading == old(loading)
    {
      error := None;
    }

    /**
     * `login`: with a known address and the demo password, the first matching
     * user's session is stored and becomes current; otherwise "Invalid
     * credentials" is recorded and neither the session nor storage changes.
     */
    method Login(store: Store, credentials: LoginCredentials) returns (s: Settlement<AuthPayload>)
      modifies this, store
      ensures store.users == old(store.users) && store.products == old(store.products) && store.orders == old(store.orders)
      ensures !loading
      ensures credentials.email in MapSeq(store.users, UserEmail) && credentials.password == DemoPassword ==>
                var u := ToAuthUser(store.users[IndexOf(MapSeq(store.users, UserEmail), credentials.email)]);
                s == Fulfilled(AuthPayload(u, TokenFor(u.id))) &&
                user == Some(u) && token == Some(TokenFor(u.id)) && isAuthenticated && error == None &&
                store.storedUser == Some(u) && store.storedToken == Some(TokenFor(u.id))
      ensures !(credentials.email in MapSeq(store.users, UserEmail) && credentials.password == DemoPassword) ==>
                s == Rejected("Invalid credentials") && error == Some("Invalid credentials") &&
                user == old(user) && token == old(token) && isAuthenticated == old(isAuthenticated) &&
                store.storedUser == old(store.storedUser) && store.storedToken == old(store.storedToken)
    {
      OnPending();
      var r := store.Login(credentials);
      s := SettlePassThrough(r, LoginFallback);
      match s
      case Fulfilled(p) => OnSessionFulfilled(p);
      case Rejected(m) => OnRejected(m);
    }

    /**
     * `register`: a taken address, then a password mismatch, is recorded as the
     * error with the session and the backend unchanged; otherwise the new
     * viewer's session is stored and becomes current.
     */
    method Register(store: Store, data: RegisterData, now: string) returns (s: Settlement<AuthPayload>)
      modifies this, store
      ensures store.products == old(store.products) && store.orders == old(store.orders)
      ensures !loading
      ensures data.email in MapSeq(old(store.users), UserEmail) || data.password != data.confirmPassword ==>
                var m := if data.email in MapSeq(old(store.users), UserEmail) then "Email already in use"
                         else "Passwords do not match";
                s == Rejected(m) && error == Some(m) &&
                user == old(user) && token == old(token) && isAuthenticated == old(isAuthenticated) &&
                store.users == old(store.users) &&
                store.storedUser == old(store.storedUser) && store.storedToken == old(store.storedToken)
      ensures data.email !in MapSeq(old(store.users), UserEmail) && data.password == data.confirmPassword ==>
                var nu := RegisteredUser(|old(store.users)|, data, now);
                var u := ToAuthUser(nu);
                s == Fulfilled(AuthPayload(u, TokenFor(u.id))) && store.users == old(store.users) + [nu] &&
                user == Some(u) && token == Some(TokenFor(u.id)) && isAuthenticated && error == None &&
                store.storedUser == Some(u) && store.storedToken == Some(TokenFor(u.id))
    {
      OnPending();
      var r := store.Register(data, now);
      s := SettlePassThrough(r, RegisterFallback);
      match s
      case Fulfilled(p) => OnSessionFulfilled(p);
      case Rejected(m) => OnRejected(m);
    }

    /**
     * `logout` as the application has it: the thunk body only returns, so it
     * always fulfils, clears the in-memory session and never calls the backend,
     * which leaves both storage keys in place.
     */
    method Logout() returns (s: Settlement<()>)
      modifies this
      ensures s == Fulfilled(())
      ensures !loading && user == None && token == None && !isAuthenticated && error == old(error)
    {
      OnLogoutPending();
      s := Fulfilled(());
      OnLogoutFulfilled();
    }

    /** A logout that also calls the backend's logout, so storage is cleared together with the session. */
    method LogoutClearingStorage(store: Store) returns (s: Settlement<()>)
      modifies this, store
      ensures s == Fulfilled(())
      ensures !loading && user == None && token == None && !isAuthenticated && error == old(error)
      ensures store.storedUser == None && store.storedToken == None
      ensures store.users == old(store.users) && store.products == old(store.products) && store.orders == old(store.orders)
    {
      OnLogoutPending();
      store.Logout();
      s := Fulfilled(());
      OnLogoutFulfilled();
    }

    /**
     * `getCurrentUser`: a stored user is restored and authenticates the session
     * whatever the token; without one the session is cleared with "Not
     * authenticated".
     */
    method GetCurrentUser(store: Store) returns (s: Settlement<AuthUser>)
      modifies this
      ensures !loading
      ensures store.storedUser.Some? ==>
                s == Fulfilled(store.storedUser.value) && user == store.storedUser && isAuthenticated &&
                token == old(token) && error == None
      ensures store.storedUser.None? ==>
                s == Rejected("Not authenticated") && user == None && token == None && !isAuthenticated &&
                error == Some("Not authenticated")
    {
      OnPending();
      var r := store.GetCurrentUser();
      s := SettlePassThrough(r, GetCurrentUserFallback);
      match s
      case Fulfilled(u) => OnGetCurrentUserFulfilled(u);
      case Rejected(m) => OnGetCurrentUserRejected(m);
    }
  }
}

/**
 * The session life cycle across the gate: signing in, signing out through the
 * navigation bar, and opening a protected page or reloading the application
 * afterwards. The pages wrapped by the gate are mounted without a role
 * requirement, so the gate is run with `None` here.
 */
module Session {
  import opened Wrappers
  import opened Types
  import opened Text
  import opened Seqs
  import opened MockApi
  import opened AuthSlice
  import opened ProtectedRoute
  import opened Thunks
  import opened UserSlice
  import opened PageKit
  import opened ProfilePage

  /**
   * Mounting the gate on a protected page: the render decides on the state
   * found. When that state has no session and nothing loading, the decision is
   * the redirect to the login page, which replaces the location and unmounts
   * the gate, and the effect of the same mount dispatches `getCurrentUser`;
   * whatever that restores is seen only when a protected page is opened again.
   * Otherwise the session is left as it was.
   */
  method MountGate(auth: AuthState, store: Store, requiredRole: Option<Role>, location: string)
    returns (view: GateView)
    modifies auth
    ensures view == Decide(old(auth.loading), old(auth.isAuthenticated), old(auth.user), requiredRole, location)
    ensures view.RedirectToLogin? <==> ShouldRehydrate(old(auth.isAuthenticated), old(auth.loading))
    ensures !ShouldRehydrate(old(auth.isAuthenticated), old(auth.loading)) ==>
              auth.user == old(auth.user) && auth.isAuthenticated == old(auth.isAuthenticated) &&
              auth.loading == old(auth.loading)
    ensures ShouldRehydrate(old(auth.isAuthenticated), old(auth.loading)) ==>
              !auth.loading && auth.user == store.storedUser && (auth.isAuthenticated <==> store.storedUser.Some?) &&
              (store.storedUser.None? ==> auth.error == Some("Not authenticated"))
  {
    view := Decide(auth.loading, auth.isAuthenticated, auth.user, requiredRole, location);
    RedirectComesWithRehydration(auth.isAuthenticated, auth.loading, auth.user, requiredRole, location);
    if ShouldRehydrate(auth.isAuthenticated, auth.loading) {
      var _ := auth.GetCurrentUser(store);
    }
  }

  /**
   * Sign in, sign out as the application does, open a protected page, and open
   * it again: the first opening redirects to the login page, yet its effect
   * finds the stored user, so the session is back while the login page is
   * shown, and the second opening renders the page with that user signed in,
   * without credentials.
   */
  method SignOutThenOpenPage(auth: AuthState, store: Store, credentials: LoginCredentials, location: string)
    returns (first: GateView, second: GateView)
    requires credentials.email in MapSeq(store.users, UserEmail) && credentials.password == DemoPassword
    modifies auth, store
    ensures first == RedirectToLogin(location)
    ensures second == RenderChildren && auth.isAuthenticated
    ensures auth.user == Some(ToAuthUser(old(store.users)[IndexOf(MapSeq(old(store.users), UserEmail), credentials.email)]))
  {
    var _ := auth.Login(store, credentials);
    var _ := auth.Logout();
    first := MountGate(auth, store, None, location);
    assert auth.isAuthenticated;
    second := MountGate(auth, store, None, location);
  }

  /** After the same sign-out a reload starts authenticated, because the token is still stored. */
  method SignOutThenReload(auth: AuthState, store: Store, credentials: LoginCredentials) returns (reloaded: AuthState)
    requires credentials.email in MapSeq(store.users, UserEmail) && credentials.password == DemoPassword
    modifies auth, store
    ensures reloaded.isAuthenticated
    ensures reloaded.user == Some(ToAuthUser(old(store.users)[IndexOf(MapSeq(old(store.users), UserEmail), credentials.email)]))
  {
    var _ := auth.Login(store, credentials);
    var _ := auth.Logout();
    assert Truthy(store.storedToken) by {
      assert TokenFor(store.storedUser.value.id)[..15] == "mock-jwt-token-";
    }
    reloaded := new AuthState(store);
  }

  /**
   * With the logout that clears storage, the same sequence stays signed out:
   * both openings redirect to the login page and rehydration fails.
   */
  method CorrectedSignOutThenOpenPage(auth: AuthState, store: Store, credentials: LoginCredentials, location: string)
    returns (first: GateView, second: GateView)
    requires credentials.email in MapSeq(store.users, UserEmail) && credentials.password == DemoPassword
    modifies auth, store
    ensures first == RedirectToLogin(location) && second == RedirectToLogin(location)
    ensures !auth.isAuthenticated && auth.user == None && auth.error == Some("Not authenticated")
  {
    var _ := auth.Login(store, credentials);
    var _ := auth.LogoutClearingStorage(store);
    first := MountGate(auth, store, None, location);
    second := MountGate(auth, store, None, location);
  }

  /** With the corrected logout a reload starts signed out. */
  method CorrectedSignOutThenReload(auth: AuthState, store: Store, credentials: LoginCredentials)
    returns (reloaded: AuthState)
    requires credentials.email in MapSeq(store.users, UserEmail) && credentials.password == DemoPassword
    modifies auth, store
    ensures !reloaded.isAuthenticated && reloaded.user == None
  {
    var _ := auth.Login(store, credentials);
    var _ := auth.LogoutClearingStorage(store);
    reloaded := new AuthState(store);
  }

  /**
   * Renaming oneself on the profile page, as written: the backend record takes
   * the new name and success is reported, but the refresh reads the stored
   * session copy, which the update never touched, so the session keeps the old
   * name and the session effect puts the old name back into the form.
   */
  method RenameOnProfile(page: ProfilePageState, users: UserState, auth: AuthState, store: Store, newName: string)
    returns (update: Option<ProfileUpdate>)
    requires auth.user.Some? && store.storedUser == auth.user
    requires auth.user.value.id in MapSeq(store.users, UserId)
    requires store.users[IndexOf(MapSeq(store.users, UserId), auth.user.value.id)].email == auth.user.value.email
    requires HasVisibleChar(newName) && newName != auth.user.value.name
    modifies page, users, auth, store
    ensures update == Some(ProfileUpdate(old(auth.user).value.id, ProfileData(newName, old(auth.user).value)))
    ensures var i := IndexOf(MapSeq(old(store.users), UserId), old(auth.user).value.id);
            |store.users| == |old(store.users)| && store.users[i].name == newName
    ensures page.toast == Toast(true, ProfileUpdatedMessage, SuccessToast)
    ensures auth.user == old(auth.user) && auth.user.value.name != newName
    ensures page.name == old(auth.user).value.name
  {
    var user := auth.user.value;
    var data := ProfileData(newName, user);
    ghost var i := IndexOf(MapSeq(store.users, UserId), user.id);
    ghost var renamed := MergeUser(store.users[i], data);
    page.name := newName;
    ProfileFormsValidity(newName, "", "", "");
    assert data.email == store.users[i].email;
    var updated := users.UpdateUser(store, user.id, data);
    assert updated == Fulfilled(renamed);
    var refreshed := auth.GetCurrentUser(store);
    var refresh;
    update, refresh := page.HandleProfileSubmit(Some(user), updated, refreshed);
    page.OnSessionUser(auth.user);
  }

  /**
   * The same rename over the backend update that keeps the stored session copy
   * in step: the refresh brings the new name into the session and the form.
   */
  method CorrectedRenameOnProfile(page: ProfilePageState, users: UserState, auth: AuthState, store: Store, newName: string)
    returns (update: Option<ProfileUpdate>)
    requires auth.user.Some? && store.storedUser == auth.user
    requires auth.user.value.id in MapSeq(store.users, UserId)
    requires store.users[IndexOf(MapSeq(store.users, UserId), auth.user.value.id)].email == auth.user.value.email
    requires HasVisibleChar(newName) && newName != auth.user.value.name
    modifies page, users, auth, store
    ensures update == Some(ProfileUpdate(old(auth.user).value.id, ProfileData(newName, old(auth.user).value)))
    ensures var i := IndexOf(MapSeq(old(store.users), UserId), old(auth.user).value.id);
            |store.users| == |old(store.users)| && store.users[i].name == newName
    ensures page.toast == Toast(true, ProfileUpdatedMessage, SuccessToast)
    ensures auth.user.Some? && auth.user.value.id == old(auth.user).value.id && auth.user.value.name == newName
    ensures page.name == newName
  {
    var user := auth.user.value;
    var data := ProfileData(newName, user);
    ghost var i := IndexOf(MapSeq(store.users, UserId), user.id);
    ghost var renamed := MergeUser(store.users[i], data);
    page.name := newName;
    ProfileFormsValidity(newName, "", "", "");
    assert data.email == store.users[i].email;
    var updated := users.UpdateUserKeepingSession(store, user.id, data);
    assert updated == Fulfilled(renamed);
    var refreshed := auth.GetCurrentUser(store);
    var refresh;
    update, refresh := page.HandleProfileSubmit(Some(user), updated, refreshed);
    page.OnSessionUser(auth.user);
  }
}

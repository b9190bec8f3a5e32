/**
 * The sign-in page: its validation and the submit flow. The backend's outcome
 * is reported by the session state, whose error the page's notification shows;
 * the page only opens it, and closing it clears that error.
 */
module LoginPage {
  import opened Wrappers
  import opened Types
  import opened Text
  import opened MockApi
  import opened Thunks
  import opened Seqs
  import opened AuthSlice
  import opened PageKit

  const HomePath := "/"

  datatype LoginErrors = LoginErrors(email: Option<string>, password: Option<string>)

  const NoLoginErrors := LoginErrors(None, None)

  /** `validateForm`'s error object: the address is trimmed, the password is not. */
  function ValidateLogin(c: LoginCredentials): LoginErrors {
    LoginErrors(
      if IsBlank(c.email) then Some("Email is required") else None,
      if c.password == "" then Some("Password is required") else None)
  }

  /**
   * Credentials are sent exactly when the address holds a visible character
   * and the password is non-empty; the address's format is not checked here,
   * and a password of spaces is accepted.
   */
  lemma LoginFormValidity(c: LoginCredentials)
    ensures ValidateLogin(c) == NoLoginErrors <==> HasVisibleChar(c.email) && c.password != ""
    ensures ValidateLogin(LoginCredentials("x", " ")) == NoLoginErrors
    ensures ValidateLogin(LoginCredentials(" ", DemoPassword)).email == Some("Email is required")
  {
    BlankIffAllWhitespace(c.email);
    BlankIffAllWhitespace("x");
    BlankIffAllWhitespace(" ");
  }

  class LoginPageState {
    var credentials: LoginCredentials
    var formErrors: LoginErrors
    var toastOpen: bool
    var navigation: Option<string>

    constructor ()
      ensures credentials == LoginCredentials("", "") && formErrors == NoLoginErrors
      ensures !toastOpen && navigation == None
    {
      credentials := LoginCredentials("", "");
      formErrors := NoLoginErrors;
      toastOpen := false;
      navigation := None;
    }

    /**
     * `handleSubmit`: invalid input only shows its errors; valid credentials are
     * sent as typed; success goes home and failure opens the notification.
     */
    method HandleSubmit(outcome: Settlement<AuthPayload>) returns (request: Option<LoginCredentials>)
      modifies this
      ensures formErrors == ValidateLogin(old(credentials)) && credentials == old(credentials)
      ensures request.Some? <==> formErrors == NoLoginErrors
      ensures request.None? ==> toastOpen == old(toastOpen) && navigation == old(navigation)
      ensures request.Some? ==>
                request.value == credentials &&
                if outcome.Fulfilled? then navigation == Some(HomePath) && toastOpen == old(toastOpen)
                else toastOpen && navigation == old(navigation)
    {
      formErrors := ValidateLogin(credentials);
      if formErrors != NoLoginErrors {
        return None;
      }
      request := Some(credentials);
      if outcome.Fulfilled? {
        navigation := Some(HomePath);
      } else {
        toastOpen := true;
      }
    }

    /** Closing the notification also clears the session's error. */
    method HandleToastOpenChange(open: bool, auth: AuthState)
      modifies this, auth
      ensures toastOpen == open
      ensures credentials == old(credentials) && formErrors == old(formErrors) && navigation == old(navigation)
      ensures auth.error == if open then old(auth.error) else None
      ensures auth.user == old(auth.user) && auth.token == old(auth.token)
      ensures auth.isAuthenticated == old(auth.isAuthenticated) && auth.loading == old(auth.loading)
    {
      toastOpen := open;
      if !open {
        auth.ClearError();
      }
    }

    /**
     * Signing in through the page: valid input is sent to the session state;
     * the page goes home exactly when the backend knows the address and the
     * password is the demo password, and otherwise shows "Invalid credentials".
     */
    method SignIn(auth: AuthState, store: Store) returns (request: Option<LoginCredentials>)
      modifies this, auth, store
      ensures formErrors == ValidateLogin(old(credentials)) && credentials == old(credentials)
      ensures request.Some? <==> formErrors == NoLoginErrors
      ensures request.None? ==> navigation == old(navigation) && toastOpen == old(toastOpen)
      ensures request.Some? ==>
                var known := credentials.email in MapSeq(store.users, UserEmail) && credentials.password == DemoPassword;
                (navigation == Some(HomePath) <==> known || old(navigation) == Some(HomePath)) &&
                (known ==> auth.isAuthenticated && navigation == Some(HomePath)) &&
                (!known ==> toastOpen && auth.error == Some("Invalid credentials") &&
                            NotificationText(auth.error) == "Invalid credentials")
    {
      formErrors := ValidateLogin(credentials);
      if formErrors != NoLoginErrors {
        return None;
      }
      var outcome := auth.Login(store, credentials);
      request := HandleSubmit(outcome);
    }
  }
}

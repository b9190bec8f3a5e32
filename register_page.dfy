/**
 * The registration page: its validation and the submit flow. The backend's
 * outcome is reported by the session state, whose error the page's
 * notification shows; the page only opens it.
 */
module RegisterPage {
  import opened Wrappers
  import opened Types
  import opened Text
  import opened Utils
  import opened MockApi
  import opened Thunks
  import opened AuthSlice
  import opened PageKit

  const HomePath := "/"
  const MinPasswordLength := 6

  datatype RegisterErrors = RegisterErrors(
    name: Option<string>,
    email: Option<string>,
    password: Option<string>,
    confirmPassword: Option<string>)

  const NoRegisterErrors := RegisterErrors(None, None, None, None)

  /** `validateForm`'s error object; the confirmation is compared whatever else fails. */
  function ValidateRegister(d: RegisterData): RegisterErrors {
    RegisterErrors(
      if IsBlank(d.name) then Some("Name is required") else None,
      if IsBlank(d.email) then Some("Email is required")
      else if !IsValidEmail(d.email) then Some("Invalid email format")
      else None,
      if d.password == "" then Some("Password is required")
      else if |d.password| < MinPasswordLength then Some("Password must be at least 6 characters")
      else None,
      if d.password != d.confirmPassword then Some("Passwords do not match") else None)
  }

  /**
   * A registration is accepted exactly when the name holds a visible
   * character, the address is well formed, the password has at least six
   * characters and the confirmation repeats it. The mismatch message appears
   * exactly when the two differ, independently of the other fields, so the
   * backend's own mismatch check never fails for a request the page sends.
   */
  lemma RegisterFormValidity(d: RegisterData)
    ensures ValidateRegister(d) == NoRegisterErrors <==>
      HasVisibleChar(d.name) && IsValidEmail(d.email) &&
      |d.password| >= MinPasswordLength && d.password == d.confirmPassword
    ensures ValidateRegister(d).confirmPassword.Some? <==> d.password != d.confirmPassword
    ensures ValidateRegister(d) == NoRegisterErrors ==> d.password == d.confirmPassword && d.password != ""
  {
    BlankIffAllWhitespace(d.name);
    if IsValidEmail(d.email) {
      ValidEmailIsNotBlank(d.email);
    }
  }

  class RegisterPageState {
    var form: RegisterData
    var formErrors: RegisterErrors
    var toastOpen: bool
    var navigation: Option<string>

    constructor ()
      ensures form == RegisterData("", "", "", "") && formErrors == NoRegisterErrors
      ensures !toastOpen && navigation == None
    {
      form := RegisterData("", "", "", "");
      formErrors := NoRegisterErrors;
      toastOpen := false;
      navigation := None;
    }

    /**
     * `handleSubmit`: an invalid form only shows its errors; a valid one is sent
     * as it stands; success goes home and failure opens the notification.
     */
    method HandleSubmit(outcome: Settlement<AuthPayload>) returns (request: Option<RegisterData>)
      modifies this
      ensures formErrors == ValidateRegister(old(form)) && form == old(form)
      ensures request.Some? <==> formErrors == NoRegisterErrors
      ensures request.None? ==> toastOpen == old(toastOpen) && navigation == old(navigation)
      ensures request.Some? ==>
                request.value == form &&
                if outcome.Fulfilled? then navigation == Some(HomePath) && toastOpen == old(toastOpen)
                else toastOpen && navigation == old(navigation)
    {
      formErrors := ValidateRegister(form);
      if formErrors != NoRegisterErrors {
        return None;
      }
      request := Some(form);
      if outcome.Fulfilled? {
        navigation := Some(HomePath);
      } else {
        toastOpen := true;
      }
    }

    /** Closing the notification also clears the session's error. */
    method HandleToastOpenChange(open: bool, auth: AuthState)
      modifies this, auth
      ensures toastOpen == open
      ensures form == old(form) && formErrors == old(formErrors) && navigation == old(navigation)
      ensures auth.error == if open then old(auth.error) else None
      ensures auth.user == old(auth.user) && auth.token == old(auth.token)
      ensures auth.isAuthenticated == old(auth.isAuthenticated) && auth.loading == old(auth.loading)
    {
      toastOpen := open;
      if !open {
        auth.ClearError();
      }
    }
  }
}

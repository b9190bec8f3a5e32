/**
 * The profile page: a name form that saves through the user service and then
 * refreshes the session, and a password form that is checked locally against
 * the demo password. Both forms share one error object.
 *
 * Each handler returns what it dispatches; the awaited settlements are
 * parameters.
 */
module ProfilePage {
  import opened Wrappers
  import opened Types
  import opened Text
  import opened MockApi
  import opened Thunks
  import opened PageKit

  const MinPasswordLength := 6
  const ProfileUpdatedMessage := "Profile updated successfully"
  const PasswordUpdatedMessage := "Password updated successfully"
  const IncorrectPasswordMessage := "Incorrect password"

  /** The error object both forms write. */
  datatype ProfileErrors = ProfileErrors(
    name: Option<string>,
    currentPassword: Option<string>,
    newPassword: Option<string>,
    confirmPassword: Option<string>)

  const NoProfileErrors := ProfileErrors(None, None, None, None)

  /** `validateProfileForm`'s error object. */
  function ValidateProfile(name: string): ProfileErrors {
    NoProfileErrors.(name := if IsBlank(name) then Some("Name is required") else None)
  }

  /** `validatePasswordForm`'s error object; the confirmation is compared whatever else fails. */
  function ValidatePassword(currentPassword: string, newPassword: string, confirmPassword: string): ProfileErrors {
    ProfileErrors(
      None,
      if currentPassword == "" then Some("Current password is required") else None,
      if newPassword == "" then Some("New password is required")
      else if |newPassword| < MinPasswordLength then Some("Password must be at least 6 characters")
      else None,
      if newPassword != confirmPassword then Some("Passwords do not match") else None)
  }

  /**
   * The name form is accepted exactly when the name holds a visible character;
   * the password form exactly when a current password is given and the new one
   * has at least six characters and is repeated.
   */
  lemma ProfileFormsValidity(name: string, currentPassword: string, newPassword: string, confirmPassword: string)
    ensures ValidateProfile(name) == NoProfileErrors <==> HasVisibleChar(name)
    ensures ValidatePassword(currentPassword, newPassword, confirmPassword) == NoProfileErrors <==>
      currentPassword != "" && |newPassword| >= MinPasswordLength && newPassword == confirmPassword
  {
    BlankIffAllWhitespace(name);
  }

  /**
   * What a profile save sends: the typed name, with the session's address and
   * role and the active status; no password.
   */
  function ProfileData(name: string, user: AuthUser): (d: UserFormData)
    ensures d.email == user.email && d.role == user.role && d.status == Active && d.password == None
    ensures d.name == name
  {
    UserFormData(name, user.email, user.role, None, Active)
  }

  /**
   * Saving one's profile cannot change one's address, role or avatar: the
   * merged record differs from the stored one at most in name and status.
   */
  lemma ProfileSaveTouchesOnlyNameAndStatus(stored: User, name: string, user: AuthUser)
    requires stored.email == user.email && stored.role == user.role
    ensures MergeUser(stored, ProfileData(name, user)) == stored.(name := name, status := Active)
  {
  }

  /** The incorrect-password errors as written: the errors shown when the form was rendered, plus the new message. */
  function IncorrectPasswordErrors(shown: ProfileErrors): ProfileErrors {
    shown.(currentPassword := Some(IncorrectPasswordMessage))
  }

  /**
   * A mismatch reported by one submission is still shown after the user fixes
   * it and submits again with a wrong current password: the second form is
   * valid, yet the errors it produces still say the passwords do not match.
   */
  lemma StalePasswordErrorsSurvive()
    ensures ValidatePassword("secret", "abcdef", "abcdeg").confirmPassword == Some("Passwords do not match")
    ensures ValidatePassword("secret", "abcdef", "abcdef") == NoProfileErrors
    ensures IncorrectPasswordErrors(ValidatePassword("secret", "abcdef", "abcdeg")).confirmPassword ==
            Some("Passwords do not match")
    ensures IncorrectPasswordErrors(ValidatePassword("secret", "abcdef", "abcdef")) ==
            NoProfileErrors.(currentPassword := Some(IncorrectPasswordMessage))
  {
  }

  datatype ProfileUpdate = ProfileUpdate(id: string, data: UserFormData)

  class ProfilePageState {
    var name: string
    var email: string
    var currentPassword: string
    var newPassword: string
    var confirmPassword: string
    var formErrors: ProfileErrors
    var toast: Toast
    var isPasswordSection: bool

    constructor ()
      ensures name == "" && email == "" && currentPassword == "" && newPassword == "" && confirmPassword == ""
      ensures formErrors == NoProfileErrors && toast == ClosedToast && !isPasswordSection
    {
      name := "";
      email := "";
      currentPassword := "";
      newPassword := "";
      confirmPassword := "";
      formErrors := NoProfileErrors;
      toast := ClosedToast;
      isPasswordSection := false;
    }

    /** The session effect: a signed-in user's name and address fill the form. */
    method OnSessionUser(user: Option<AuthUser>)
      modifies this
      ensures user.Some? ==> name == user.value.name && email == user.value.email
      ensures user.None? ==> name == old(name) && email == old(email)
      ensures currentPassword == old(currentPassword) && newPassword == old(newPassword)
      ensures confirmPassword == old(confirmPassword) && formErrors == old(formErrors)
      ensures toast == old(toast) && isPasswordSection == old(isPasswordSection)
    {
      if user.Some? {
        name := user.value.name;
        email := user.value.email;
      }
    }

    /** The error effect: a user-slice error opens an error notification with its text. */
    method OnSliceError(error: Option<string>)
      modifies this
      ensures toast == if Truthy(error) then Toast(true, error.value, ErrorToast) else old(toast)
      ensures name == old(name) && email == old(email) && currentPassword == old(currentPassword)
      ensures newPassword == old(newPassword) && confirmPassword == old(confirmPassword)
      ensures formErrors == old(formErrors) && isPasswordSection == old(isPasswordSection)
    {
      if Truthy(error) {
        toast := Toast(true, error.value, ErrorToast);
      }
    }

    /**
     * `handleProfileSubmit`: with a valid name and a signed-in user, the update
     * is sent and, once it succeeds, the session is refreshed; the notification
     * reports success only when both succeed, and otherwise the first rejection.
     */
    method HandleProfileSubmit(user: Option<AuthUser>, updated: Settlement<User>, refreshed: Settlement<AuthUser>)
      returns (update: Option<ProfileUpdate>, refresh: bool)
      modifies this
      ensures formErrors == ValidateProfile(old(name))
      ensures update.Some? <==> formErrors == NoProfileErrors && user.Some?
      ensures refresh ==> update.Some?
      ensures update.None? ==> !refresh && toast == old(toast)
      ensures update.Some? ==>
                update.value == ProfileUpdate(user.value.id, ProfileData(name, user.value)) &&
                (refresh <==> updated.Fulfilled?) &&
                toast == if updated.Rejected? then Toast(true, updated.payload, ErrorToast)
                         else if refreshed.Rejected? then Toast(true, refreshed.payload, ErrorToast)
                         else Toast(true, ProfileUpdatedMessage, SuccessToast)
      ensures name == old(name) && email == old(email) && currentPassword == old(currentPassword)
      ensures newPassword == old(newPassword) && confirmPassword == old(confirmPassword)
      ensures isPasswordSection == old(isPasswordSection)
    {
      formErrors := ValidateProfile(name);
      if formErrors != NoProfileErrors || user.None? {
        return None, false;
      }
      update := Some(ProfileUpdate(user.value.id, ProfileData(name, user.value)));
      refresh := false;
      if updated.Rejected? {
        toast := Toast(true, CaughtText(CaughtString(updated.payload), GenericFailure), ErrorToast);
        return;
      }
      refresh := true;
      if refreshed.Rejected? {
        toast := Toast(true, CaughtText(CaughtString(refreshed.payload), GenericFailure), ErrorToast);
        return;
      }
      toast := Toast(true, ProfileUpdatedMessage, SuccessToast);
    }

    /**
     * `handlePasswordSubmit` as written: a valid form with a current password
     * other than the demo password is refused, and the errors become those
     * shown before the submission plus "Incorrect password". With the demo
     * password the fields are cleared, the section closes and success is
     * reported; nothing is sent.
     */
    method HandlePasswordSubmit(user: Option<AuthUser>)
      modifies this
      ensures var errors := ValidatePassword(old(currentPassword), old(newPassword), old(confirmPassword));
              if errors != NoProfileErrors || user.None? then
                formErrors == errors && toast == old(toast) && isPasswordSection == old(isPasswordSection) &&
                currentPassword == old(currentPassword) && newPassword == old(newPassword) &&
                confirmPassword == old(confirmPassword)
              else if old(currentPassword) != DemoPassword then
                formErrors == IncorrectPasswordErrors(old(formErrors)) && toast == old(toast) &&
                isPasswordSection == old(isPasswordSection) && currentPassword == old(currentPassword) &&
                newPassword == old(newPassword) && confirmPassword == old(confirmPassword)
              else
                formErrors == errors && toast == Toast(true, PasswordUpdatedMessage, SuccessToast) &&
                currentPassword == "" && newPassword == "" && confirmPassword == "" && !isPasswordSection
      ensures name == old(name) && email == old(email)
    {
      var shown := formErrors;
      formErrors := ValidatePassword(currentPassword, newPassword, confirmPassword);
      if formErrors != NoProfileErrors || user.None? {
        return;
      }
      if currentPassword != DemoPassword {
        formErrors := IncorrectPasswordErrors(shown);
        return;
      }
      toast := Toast(true, PasswordUpdatedMessage, SuccessToast);
      currentPassword := "";
      newPassword := "";
      confirmPassword := "";
      isPasswordSection := false;
    }

    /**
     * `handlePasswordSubmit` with the refusal built on the errors of this
     * submission: a refused form shows "Incorrect password" and nothing else.
     */
    method HandlePasswordSubmitCorrected(user: Option<AuthUser>)
      modifies this
      ensures var errors := ValidatePassword(old(currentPassword), old(newPassword), old(confirmPassword));
              if errors != NoProfileErrors || user.None? then
                formErrors == errors && toast == old(toast) && isPasswordSection == old(isPasswordSection) &&
                currentPassword == old(currentPassword) && newPassword == old(newPassword) &&
                confirmPassword == old(confirmPassword)
              else if old(currentPassword) != DemoPassword then
                formErrors == NoProfileErrors.(currentPassword := Some(IncorrectPasswordMessage)) &&
                toast == old(toast) && isPasswordSection == old(isPasswordSection) &&
                currentPassword == old(currentPassword) && newPassword == old(newPassword) &&
                confirmPassword == old(confirmPassword)
              else
                formErrors == errors && toast == Toast(true, PasswordUpdatedMessage, SuccessToast) &&
                currentPassword == "" && newPassword == "" && confirmPassword == "" && !isPasswordSection
      ensures name == old(name) && email == old(email)
    {
      formErrors := ValidatePassword(currentPassword, newPassword, confirmPassword);
      if formErrors != NoProfileErrors || user.None? {
        return;
      }
      if currentPassword != DemoPassword {
        formErrors := IncorrectPasswordErrors(formErrors);
        return;
      }
      toast := Toast(true, PasswordUpdatedMessage, SuccessToast);
      currentPassword := "";
      newPassword := "";
      confirmPassword := "";
      isPasswordSection := false;
    }
  }
}

/**
 * The user create/edit page, reachable by administrators only: its validation,
 * its input handling and the submit flow, including the guard against an
 * administrator removing their own administrator role.
 *
 * Submission returns the request it dispatches; the awaited settlement of that
 * request is a parameter.
 */
module UserForm {
  import opened Wrappers
  import opened Types
  import opened Text
  import opened Utils
  import opened Thunks
  import opened PageKit

  const HomePath := "/"
  const UsersPath := "/users"
  const UserUpdatedMessage := "User updated successfully"
  const UserCreatedMessage := "User created successfully"
  const SelfDemotionMessage := "You can't change your own role from admin"
  const MinPasswordLength := 6

  datatype UserErrors = UserErrors(name: Option<string>, email: Option<string>, password: Option<string>)

  const NoUserErrors := UserErrors(None, None, None)

  const EmptyUserForm := UserFormData("", "", Viewer, Some(""), Active)

  /** `validateForm`'s error object; a password is demanded only when creating. */
  function ValidateUser(d: UserFormData, isEditMode: bool): UserErrors {
    UserErrors(
      if IsBlank(d.name) then Some("Name is required") else None,
      if IsBlank(d.email) then Some("Email is required")
      else if !IsValidEmail(d.email) then Some("Invalid email format")
      else None,
      if !isEditMode && !Truthy(d.password) then Some("Password is required for new users")
      else if Truthy(d.password) && |d.password.value| < MinPasswordLength then Some("Password must be at least 6 characters")
      else None)
  }

  /**
   * A form is accepted exactly when the name holds a visible character, the
   * address is well formed, and the password is either absent in edit mode or
   * at least six characters long.
   */
  lemma UserFormValidity(d: UserFormData, isEditMode: bool)
    ensures ValidateUser(d, isEditMode) == NoUserErrors <==>
      HasVisibleChar(d.name) && IsValidEmail(d.email) &&
      (isEditMode || Truthy(d.password)) &&
      (Truthy(d.password) ==> |d.password.value| >= MinPasswordLength)
  {
    BlankIffAllWhitespace(d.name);
    if IsValidEmail(d.email) {
      ValidEmailIsNotBlank(d.email);
    }
  }

  /** The inputs wired to `handleChange`. */
  datatype TextInput = NameInput | EmailInput | PasswordInput

  /** The selects wired to `handleSelectChange`. */
  datatype Selection = RoleSelection(role: Role) | StatusSelection(status: UserStatus)

  function WithInput(d: UserFormData, input: TextInput, value: string): UserFormData {
    match input
    case NameInput => d.(name := value)
    case EmailInput => d.(email := value)
    case PasswordInput => d.(password := Some(value))
  }

  function WithSelection(d: UserFormData, choice: Selection): UserFormData {
    match choice
    case RoleSelection(r) => d.(role := r)
    case StatusSelection(s) => d.(status := s)
  }

  function InputError(e: UserErrors, input: TextInput): Option<string> {
    match input
    case NameInput => e.name
    case EmailInput => e.email
    case PasswordInput => e.password
  }

  function ClearInputError(e: UserErrors, input: TextInput): UserErrors {
    match input
    case NameInput => e.(name := None)
    case EmailInput => e.(email := None)
    case PasswordInput => e.(password := None)
  }

  /**
   * What the catch block shows for a caught value when an `Error`'s own message
   * is shown, as the guard's message evidently expects.
   */
  function CaughtMessage(c: Caught): string {
    match c
    case CaughtString(text) => text
    case CaughtError(message) => message
  }

  /**
   * As written, the catch block keeps only string values, so the guard's
   * `Error` is reported as "An error occurred"; showing the error's message
   * reports the guard's own text. Rejection payloads read the same either way.
   */
  lemma SelfDemotionMessageIsLost(payload: string)
    ensures CaughtText(CaughtError(SelfDemotionMessage), GenericFailure) == GenericFailure
    ensures CaughtText(CaughtError(SelfDemotionMessage), GenericFailure) != SelfDemotionMessage
    ensures CaughtMessage(CaughtError(SelfDemotionMessage)) == SelfDemotionMessage
    ensures CaughtMessage(CaughtString(payload)) == CaughtText(CaughtString(payload), GenericFailure)
  {
  }

  datatype UserRequest = CreateUserRequest(data: UserFormData) | UpdateUserRequest(id: string, data: UserFormData)

  datatype UserMount = FetchUserRequest(id: string) | ClearCurrentUserRequest

  class UserFormPage {
    const id: Option<string>
    const authUser: Option<AuthUser>
    var formData: UserFormData
    var formErrors: UserErrors
    var toast: Toast
    var submitting: bool
    var navigation: Option<string>

    constructor (id: Option<string>, authUser: Option<AuthUser>)
      ensures this.id == id && this.authUser == authUser
      ensures formData == EmptyUserForm && formErrors == NoUserErrors
      ensures toast == ClosedToast && !submitting && navigation == None
    {
      this.id := id;
      this.authUser := authUser;
      formData := EmptyUserForm;
      formErrors := NoUserErrors;
      toast := ClosedToast;
      submitting := false;
      navigation := None;
    }

    predicate IsEditMode() {
      Truthy(id)
    }

    /** Saving would take the signed-in administrator's own account out of the administrator role. */
    predicate IsSelfDemotion()
      reads this
    {
      IsEditMode() && IsSelf(id.value, authUser) && formData.role != Admin
    }

    /**
     * The mount effect: anyone but an administrator is sent home and nothing is
     * dispatched; otherwise the edited user is fetched, or the current user cleared.
     */
    method Mount() returns (request: Option<UserMount>)
      modifies this
      ensures !IsAdmin(authUser) ==> request == None && navigation == Some(HomePath)
      ensures IsAdmin(authUser) ==>
                navigation == old(navigation) &&
                request == Some(if IsEditMode() then FetchUserRequest(id.value) else ClearCurrentUserRequest)
      ensures formData == old(formData) && formErrors == old(formErrors)
      ensures toast == old(toast) && submitting == old(submitting)
    {
      if !IsAdmin(authUser) {
        navigation := Some(HomePath);
        return None;
      }
      if IsEditMode() {
        request := Some(FetchUserRequest(id.value));
      } else {
        request := Some(ClearCurrentUserRequest);
      }
    }

    /** The sync effect: in edit mode a loaded user fills the form, with an empty password. */
    method OnCurrentUser(current: Option<User>)
      modifies this
      ensures current.Some? && IsEditMode() ==>
                var u := current.value;
                formData == UserFormData(u.name, u.email, u.role, Some(""), u.status)
      ensures !(current.Some? && IsEditMode()) ==> formData == old(formData)
      ensures formErrors == old(formErrors) && toast == old(toast)
      ensures submitting == old(submitting) && navigation == old(navigation)
    {
      if current.Some? && IsEditMode() {
        var u := current.value;
        formData := UserFormData(u.name, u.email, u.role, Some(""), u.status);
      }
    }

    /** The error effect: a slice error opens an error notification with its text. */
    method OnSliceError(error: Option<string>)
      modifies this
      ensures toast == if Truthy(error) then Toast(true, error.value, ErrorToast) else old(toast)
      ensures formData == old(formData) && formErrors == old(formErrors)
      ensures submitting == old(submitting) && navigation == old(navigation)
    {
      if Truthy(error) {
        toast := Toast(true, error.value, ErrorToast);
      }
    }

    /** `handleChange`: the input's field takes the value and loses its error. */
    method HandleChange(input: TextInput, value: string)
      modifies this
      ensures formData == WithInput(old(formData), input, value)
      ensures formErrors == ClearInputError(old(formErrors), input) && InputError(formErrors, input) == None
      ensures toast == old(toast) && submitting == old(submitting) && navigation == old(navigation)
    {
      formData := WithInput(formData, input, value);
      if InputError(formErrors, input).Some? {
        formErrors := ClearInputError(formErrors, input);
      }
    }

    /** `handleSelectChange`: the role or status is stored; no error is touched. */
    method HandleSelectChange(choice: Selection)
      modifies this
      ensures formData == WithSelection(old(formData), choice)
      ensures formErrors == old(formErrors) && toast == old(toast)
      ensures submitting == old(submitting) && navigation == old(navigation)
    {
      formData := WithSelection(formData, choice);
    }

    /** The part of a submission after the guard: dispatch, then report the settlement. */
    method Send(outcome: Settlement<User>) returns (request: UserRequest)
      modifies this
      ensures request == if IsEditMode() then UpdateUserRequest(id.value, formData) else CreateUserRequest(formData)
      ensures !submitting && formData == old(formData) && formErrors == old(formErrors)
      ensures match outcome
              case Fulfilled(_) =>
                toast == Toast(true, if IsEditMode() then UserUpdatedMessage else UserCreatedMessage, SuccessToast) &&
                navigation == Some(UsersPath)
              case Rejected(payload) =>
                toast == Toast(true, payload, ErrorToast) && navigation == old(navigation)
    {
      if IsEditMode() {
        request := UpdateUserRequest(id.value, formData);
      } else {
        request := CreateUserRequest(formData);
      }
      match outcome {
        case Fulfilled(_) =>
          toast := Toast(true, if IsEditMode() then UserUpdatedMessage else UserCreatedMessage, SuccessToast);
          navigation := Some(UsersPath);
        case Rejected(payload) =>
          toast := Toast(true, CaughtText(CaughtString(payload), GenericFailure), ErrorToast);
      }
      submitting := false;
    }

    /**
     * `handleSubmit` as written: an invalid form only shows its errors; a
     * self-demotion is refused without dispatching, but the refusal reads
     * "An error occurred"; otherwise the update or create is dispatched.
     */
    method HandleSubmit(outcome: Settlement<User>) returns (request: Option<UserRequest>)
      modifies this
      ensures formErrors == ValidateUser(old(formData), IsEditMode()) && formData == old(formData)
      ensures formErrors != NoUserErrors ==>
                request == None && toast == old(toast) && submitting == old(submitting) && navigation == old(navigation)
      ensures formErrors == NoUserErrors && IsSelfDemotion() ==>
                request == None && toast == Toast(true, GenericFailure, ErrorToast) &&
                !submitting && navigation == old(navigation)
      ensures formErrors == NoUserErrors && !IsSelfDemotion() ==>
                request == Some(if IsEditMode() then UpdateUserRequest(id.value, formData) else CreateUserRequest(formData)) &&
                !submitting &&
                match outcome
                case Fulfilled(_) =>
                  toast == Toast(true, if IsEditMode() then UserUpdatedMessage else UserCreatedMessage, SuccessToast) &&
                  navigation == Some(UsersPath)
                case Rejected(payload) =>
                  toast == Toast(true, payload, ErrorToast) && navigation == old(navigation)
    {
      formErrors := ValidateUser(formData, IsEditMode());
      if formErrors != NoUserErrors {
        return None;
      }
      submitting := true;
      if IsSelfDemotion() {
        toast := Toast(true, CaughtText(CaughtError(SelfDemotionMessage), GenericFailure), ErrorToast);
        submitting := false;
        return None;
      }
      var sent := Send(outcome);
      request := Some(sent);
    }

    /** `handleSubmit` with the guard's own message shown; everything else as written. */
    method HandleSubmitCorrected(outcome: Settlement<User>) returns (request: Option<UserRequest>)
      modifies this
      ensures formErrors == ValidateUser(old(formData), IsEditMode()) && formData == old(formData)
      ensures formErrors != NoUserErrors ==>
                request == None && toast == old(toast) && submitting == old(submitting) && navigation == old(navigation)
      ensures formErrors == NoUserErrors && IsSelfDemotion() ==>
                request == None && toast == Toast(true, SelfDemotionMessage, ErrorToast) &&
                !submitting && navigation == old(navigation)
      ensures formErrors == NoUserErrors && !IsSelfDemotion() ==>
                request == Some(if IsEditMode() then UpdateUserRequest(id.value, formData) else CreateUserRequest(formData)) &&
                !submitting &&
                match outcome
                case Fulfilled(_) =>
                  toast == Toast(true, if IsEditMode() then UserUpdatedMessage else UserCreatedMessage, SuccessToast) &&
                  navigation == Some(UsersPath)
                case Rejected(payload) =>
                  toast == Toast(true, payload, ErrorToast) && navigation == old(navigation)
    {
      formErrors := ValidateUser(formData, IsEditMode());
      if formErrors != NoUserErrors {
        return None;
      }
      submitting := true;
      if IsSelfDemotion() {
        toast := Toast(true, CaughtMessage(CaughtError(SelfDemotionMessage)), ErrorToast);
        submitting := false;
        return None;
      }
      var sent := Send(outcome);
      request := Some(sent);
    }

    /** The page shows only a loader while an edited user is still loading. */
    predicate ShowsLoader(loading: bool, current: Option<User>) {
      loading && IsEditMode() && current.None?
    }
  }
}

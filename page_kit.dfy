/**
 * What the pages share: the notification they show, the values a failed
 * `unwrap()` or a thrown guard delivers to their catch blocks, and the role
 * tests they make on the signed-in user.
 */
module PageKit {
  import opened Wrappers
  import opened Types
  import opened Text

  datatype ToastKind = SuccessToast | ErrorToast | WarningToast | InfoToast

  /** A page's notification: open or not, its text and its kind. */
  datatype Toast = Toast(open: bool, message: string, kind: ToastKind)

  const ClosedToast := Toast(false, "", SuccessToast)
  const GenericFailure := "An error occurred"

  /** A value caught by a page: a rejection payload (a string) or an `Error` object. */
  datatype Caught = CaughtString(text: string) | CaughtError(message: string)

  /** `typeof error === "string" ? error : fallback`. */
  function CaughtText(c: Caught, fallback: string): string {
    match c
    case CaughtString(text) => text
    case CaughtError(_) => fallback
  }

  /** The text of a notification bound to a slice error, `error || ""`. */
  function NotificationText(error: Option<string>): (text: string)
    ensures Truthy(error) ==> text == error.value
    ensures !Truthy(error) ==> text == ""
  {
    if Truthy(error) then error.value else ""
  }

  /** `user?.role === "admin"`. */
  predicate IsAdmin(user: Option<AuthUser>) {
    user.Some? && user.value.role == Admin
  }

  /** `user?.role === "admin" || user?.role === "editor"`. */
  predicate IsEditor(user: Option<AuthUser>) {
    user.Some? && (user.value.role == Admin || user.value.role == Editor)
  }

  /** `id === user?.id`: never true without a signed-in user. */
  predicate IsSelf(id: string, user: Option<AuthUser>) {
    user.Some? && user.value.id == id
  }

  /** Editors are exactly the administrators and editors; a viewer or no user is neither. */
  lemma RoleTests(user: Option<AuthUser>)
    ensures IsEditor(user) <==> user.Some? && user.value.role in {Admin, Editor}
    ensures IsAdmin(user) ==> IsEditor(user)
    ensures user.None? ==> !IsAdmin(user) && !IsEditor(user) && forall id :: !IsSelf(id, user)
  {
  }
}

# ShopVerse admin panel: a verified model of its core logic

ShopVerse Admin is a React/Redux single-page admin panel for a small shop. It works on products, users and orders and runs against an in-browser mock backend. This project models the behaviour that decides what the panel does with data:

- **The mock backend** (`MockApi.Store`). It holds the three tables and the two durable session keys (`token`, `user`). There is one method per service call, with its error messages, its `findIndex`/`splice`/`push` updates and its length-based id allocation.
- **The four request-state slices** (`ProductSlice`, `UserSlice`, `OrderSlice`, `AuthSlice`). Each slice is a class:
  - every reducer case is a method;
  - every asynchronous thunk is a method that dispatches the pending case, calls the backend and then dispatches the fulfilled or rejected case;
  - `Thunks` holds the two rules by which thunks turn a thrown value into a rejection message.
- **The authorization gate** (`ProtectedRoute`, pure) and the session life cycle across it (`Session`).
- **The helpers of `src/utils`** (`Utils`) and the string built-ins they and the pages rely on (`Text`, `Seqs`):
  - whitespace, `trim` and `toLowerCase` (ASCII);
  - `includes`, `Number.parseFloat`, integer `toString`;
  - `findIndex`, `filter`, `splice` and ordered `Set`.
- **The pages**, each as pure validators plus a class whose methods are the page's effects and handlers. The pages are ProductForm, UserForm, Register, Login, Profile, ProductList, UserList, UserDetail, Dashboard and OrderDetail.
  - Form pages return the request they dispatch and take the awaited settlement (`Fulfilled`/`Rejected`) as a parameter.
  - List and detail pages drive the slice methods against the backend directly.
  - A page's notification is a `Toast` value: open flag, text and kind.
  - Delayed navigation is recorded as `navigation := Some(path)`.

Outside input enters as parameters:

- the clock enters as a `now: string` timestamp;
- the seeded orders enter as `seedOrders`;
- what an earlier session left in storage enters as the initial `token` and `user`.

Predicates and functions with no row of their own are plain definitions, which the contracts below use. Most model what the pages render:

- `IsEditMode` and `ShowsLoader` of each page;
- `IsAdmin`, `IsEditor` and `IsSelf`;
- `UserDetail.UserDetailPage.DeleteDisabled`;
- `OrderDetail.ButtonDisabled` and `OrderDetail.OrderDetailPage.ShowsStatusControl`;
- `Dashboard.ShowsUserCount`;
- `PageKit.NotificationText`, the text of the login notification;
- `ProfilePage.ProfileData`, what a profile save sends.

## Model

| member | source | states |
|---|---|---|
| Types.RoleNamesAreExact | src/types/index.ts:8 | a role string parses exactly when it is "admin", "editor" or "viewer", and names and parsing invert each other |
| Types.UserAndProductStatusNamesAreExact | src/types/index.ts:11-32 | user statuses are exactly "active"/"inactive", product statuses exactly the three stock names; names and parsing invert each other |
| Types.OrderAndPaymentStatusNamesAreExact | src/types/index.ts:61-62 | order statuses are exactly the five names and payment statuses the four; names and parsing invert each other |
| Types.AuthUserFieldsAreUserFields | src/types/index.ts:73-79 | the session projection keeps id, name, email, role and avatar, and two users project alike exactly when those fields agree |
| Text.BlankIffAllWhitespace | src/pages/Products/ProductForm.tsx:83-93 | `!s.trim()` holds exactly when every character of `s` is JavaScript whitespace |
| Text.ToLower | src/pages/Products/ProductList.tsx:76 | lower-casing keeps the length, leaves no upper-case ASCII letter, keeps every other character, and turns each upper-case letter into the lower-case letter that upper-cases back to it |
| Text.ToLowerIdempotent | src/pages/Products/ProductList.tsx:76 | lower-casing an already lower-cased search changes nothing |
| Text.Contains | src/pages/Products/ProductList.tsx:75-77 | `includes` holds exactly when the needle occurs at some position of the haystack |
| Text.ContainsEmpty | src/pages/Products/ProductList.tsx:75-77 | every text includes the empty search |
| Text.NatToString | src/services/mockApi.ts:271 | `toString` of a count gives a non-empty run of digits with no leading zero |
| Text.DecimalRoundTrip | src/services/mockApi.ts:271 | reading back the decimal form of a count gives the count |
| Text.NatToStringInjective | src/services/mockApi.ts:271 | different counts get different id strings |
| Text.ParseDecimalRoundTrip | src/pages/Products/ProductForm.tsx:112 | `parseFloat(value) \|\| 0` of an integer's decimal form is that integer |
| Text.NoDigitsReadsAsZero | src/pages/Products/ProductForm.tsx:112 | `parseFloat(value) \|\| 0` of text with no digit is 0 |
| Seqs.IndexOf | src/services/mockApi.ts:370 | `findIndex` is -1 exactly when the key is absent, and otherwise the first position holding it |
| Seqs.RemoveAt | src/services/mockApi.ts:402 | `splice(i, 1)` shortens by one, keeps the elements before `i` and shifts those after it |
| Seqs.Filter | src/features/products/productSlice.ts:172 | `filter` returns only accepted elements of the input, keeps every accepted one, and is an order-preserving sub-sequence of the input |
| Seqs.FilterCounts | src/features/products/productSlice.ts:172 | `filter` keeps every copy of an accepted value and no copy of a rejected one |
| Seqs.Dedup | src/pages/Products/ProductList.tsx:71 | `new Set` of a sequence lists each of its elements exactly once and nothing else |
| Seqs.DedupKeepsFirstAppearanceOrder | src/pages/Products/ProductList.tsx:71 | the distinct elements come in the order of their first appearance |
| Seqs.ReplaceFirst | src/features/products/productSlice.ts:154-157 | replacing by `findIndex` overwrites the first element with the key, keeps every other element and the key sequence, and changes nothing when the key is absent |
| Seqs.FilterRemovesKey | src/features/products/productSlice.ts:172 | filtering out an id leaves no element with it and keeps every other element |
| Seqs.FilterByKeyIsRemoveAt | src/features/products/productSlice.ts:172 | with distinct ids, filtering out the id at `i` is the backend's `splice(i, 1)`, so the mirror matches the backend |
| Utils.EmailCharacterization | src/utils/index.ts:32-35 | an address is valid exactly when it has no whitespace, exactly one `@`, not in first position, and a `.` after the character following the `@` and before the last character |
| Utils.ValidEmailIsNotBlank | src/pages/Users/UserForm.tsx:87-91 | a valid address always passes the "required" check, so the two email messages are exclusive |
| Utils.TruncateTextShape | src/utils/index.ts:43-46 | a fitting text is returned unchanged; a longer one is a prefix of the text followed by "..."; for a non-negative `maxLength` that prefix is its first `maxLength` characters, and for a negative one it is the text without its last `-maxLength` characters (empty when that is all of it) |
| Utils.StatusColorOfTypedStatuses | src/utils/index.ts:49-71 | every status name gets green, red, yellow or blue by meaning, and any other string gets gray |
| Utils.RoleColorOfRoles | src/utils/index.ts:74-85 | admin is purple and editor blue; viewer and unknown roles are gray |
| Utils.OrderStatusLabelIsCapitalized | src/utils/index.ts:88-103 | every label, explicit or default, is the status with its first letter upper-cased; the length is kept |
| Thunks.MessageRulesCompared | src/features/products/productSlice.ts:24-28 | with a non-empty fallback the fallback rule never rejects with an empty message; an `Error` with a message settles alike under both rules, and the two rules differ exactly on an `Error` with an empty message and a non-empty fallback |
| Thunks.BackendMessagesPassUnchanged | src/features/orders/orderSlice.ts:20-28 | for what the backend throws, both rules settle alike: the service's error message, or its `data` |
| MockApi.SequentialIdsAreFresh | src/services/mockApi.ts:271 | while ids are "1".."n" they are distinct, and the next id allocated is new and keeps them sequential |
| MockApi.IdCollidesAfterDelete | src/services/mockApi.ts:353 | after deleting any entry except the last, the length-based id is one that is still in the table |
| MockApi.SeedTablesAreWellFormed | src/services/mockApi.ts:15-89 | the seeded users and products have sequential ids, and the seeded users have distinct addresses |
| MockApi.RegisterKeepsEmailsDistinct | src/services/mockApi.ts:262-279 | registering an unused address keeps addresses distinct; the new account is an active viewer |
| MockApi.CreateUserKeepsEmailsDistinct | src/services/mockApi.ts:348-358 | creating a user with an unused address keeps addresses distinct |
| MockApi.UpdateUserKeepsEmailsDistinct | src/services/mockApi.ts:376-385 | an update that keeps its address, or moves to an unused one, keeps addresses distinct |
| MockApi.DeleteUserKeepsTableDistinct | src/services/mockApi.ts:397-402 | deleting keeps ids and addresses distinct, and with distinct ids the deleted id is then not found |
| MockApi.DeleteProductTwiceFails | src/services/mockApi.ts:482-487 | with distinct ids a deleted product is gone, so a second delete fails with "not found" |
| MockApi.CreatedProductIsFound | src/services/mockApi.ts:441-448 | when the allocated id is new, a lookup after a create finds the new product, which carries the submitted form and the placeholder image |
| MockApi.MergeProductStoresForm | src/services/mockApi.ts:465-469 | a merge stores the form and keeps id, image and creation time; merging a product's own form changes nothing |
| MockApi.Store.constructor | src/services/mockApi.ts:15-89 | the tables start from the seeds, and the storage keys from what was left in storage |
| MockApi.Store.Login | src/services/mockApi.ts:234-257 | success exactly for a known address with the demo password; it returns and stores the first match's projection and the token `mock-jwt-token-<id>`; otherwise "Invalid credentials" and nothing changes |
| MockApi.Store.Register | src/services/mockApi.ts:259-293 | a taken address is checked first, then a password mismatch, and either changes nothing; otherwise one active viewer is appended and its session is stored; distinct addresses are preserved |
| MockApi.Store.Logout | src/services/mockApi.ts:295-299 | both storage keys are removed and no table changes |
| MockApi.Store.GetCurrentUser | src/services/mockApi.ts:301-316 | returns the stored user, whatever the stored token, or "Not authenticated" when none is stored |
| MockApi.Store.GetUsers | src/services/mockApi.ts:321-328 | the whole user table |
| MockApi.Store.GetUserById | src/services/mockApi.ts:330-343 | fails with "User not found" exactly when no user has the id; otherwise returns the first user with it |
| MockApi.Store.CreateUser | src/services/mockApi.ts:345-365 | a taken address fails and changes nothing; otherwise exactly one user with the next id is appended; distinct addresses are preserved |
| MockApi.Store.UpdateUser | src/services/mockApi.ts:367-392 | an unknown id fails first, then a changed address someone already has; otherwise only that user is merged; distinct addresses are preserved and the stored session is untouched |
| MockApi.Store.UpdateUserKeepingSession | src/services/mockApi.ts:367-392 | the same update, which also rewrites the stored session user when the updated user is the signed-in one |
| MockApi.Store.DeleteUser | src/services/mockApi.ts:394-409 | an unknown id fails; otherwise exactly the first user with the id is removed |
| MockApi.Store.GetProducts | src/services/mockApi.ts:414-421 | the whole catalogue |
| MockApi.Store.GetProductById | src/services/mockApi.ts:423-436 | fails with "Product not found" exactly when no product has the id; otherwise returns the first product with it |
| MockApi.Store.CreateProduct | src/services/mockApi.ts:438-455 | always succeeds and appends exactly one product, with the next id and the placeholder image |
| MockApi.Store.UpdateProduct | src/services/mockApi.ts:457-477 | an unknown id fails; otherwise only the first product with the id is merged with the form |
| MockApi.Store.DeleteProduct | src/services/mockApi.ts:479-494 | an unknown id fails; otherwise exactly the first product with the id is removed |
| MockApi.Store.GetOrders | src/services/mockApi.ts:499-506 | the whole order table |
| MockApi.Store.GetOrderById | src/services/mockApi.ts:508-521 | fails with "Order not found" exactly when no order has the id; otherwise returns the first order with it |
| MockApi.Store.UpdateOrderStatus | src/services/mockApi.ts:523-544 | "Order not found" for an unknown id, with nothing changed; otherwise the first order with the id is replaced by its copy with the new status and update time, keeping items and total; the table keeps its length |
| ProductSlice.ProductState.constructor | src/features/products/productSlice.ts:12-18 | empty list, no current product, not loading, no error |
| ProductSlice.ProductState.OnPending | src/features/products/productSlice.ts:106-109 | loading, error cleared, data untouched |
| ProductSlice.ProductState.OnRejected | src/features/products/productSlice.ts:114-117 | not loading, the payload becomes the error, data untouched |
| ProductSlice.ProductState.OnFetchFulfilled | src/features/products/productSlice.ts:110-113 | the list is replaced by the payload |
| ProductSlice.ProductState.OnFetchByIdFulfilled | src/features/products/productSlice.ts:124-127 | only the current product changes |
| ProductSlice.ProductState.OnCreateFulfilled | src/features/products/productSlice.ts:138-141 | the payload is appended |
| ProductSlice.ProductState.OnUpdateFulfilled | src/features/products/productSlice.ts:152-159 | the first product with the payload's id is replaced, and the payload becomes current |
| ProductSlice.ProductState.OnDeleteFulfilled | src/features/products/productSlice.ts:170-176 | every product with the id is dropped; the current product is cleared only if it has that id |
| ProductSlice.ProductState.ClearCurrentProduct | src/features/products/productSlice.ts:96-98 | only the current product is cleared |
| ProductSlice.ProductState.ClearError | src/features/products/productSlice.ts:99-101 | only the error is cleared |
| ProductSlice.ProductState.FetchProducts | src/features/products/productSlice.ts:20-30 | never fails; the list becomes the backend catalogue |
| ProductSlice.ProductState.FetchProductById | src/features/products/productSlice.ts:32-45 | the backend's product becomes current, or "Product not found" becomes the error |
| ProductSlice.ProductState.CreateProduct | src/features/products/productSlice.ts:47-60 | the created product is appended to the backend and to the list |
| ProductSlice.ProductState.UpdateProduct | src/features/products/productSlice.ts:62-78 | the merged product replaces its backend and list entries and becomes current, or "Product not found" is recorded |
| ProductSlice.ProductState.DeleteProduct | src/features/products/productSlice.ts:80-90 | fulfils with the id, which then leaves both the backend and the list, or "Product not found" is recorded |
| UserSlice.UserState.constructor | src/features/users/userSlice.ts:12-18 | empty list, no current user, not loading, no error |
| UserSlice.UserState.OnPending | src/features/users/userSlice.ts:97-100 | loading, error cleared, data untouched |
| UserSlice.UserState.OnRejected | src/features/users/userSlice.ts:105-108 | not loading, the payload becomes the error, data untouched |
| UserSlice.UserState.OnFetchFulfilled | src/features/users/userSlice.ts:101-104 | the list is replaced by the payload |
| UserSlice.UserState.OnFetchByIdFulfilled | src/features/users/userSlice.ts:115-118 | only the current user changes |
| UserSlice.UserState.OnCreateFulfilled | src/features/users/userSlice.ts:129-132 | the payload is appended |
| UserSlice.UserState.OnUpdateFulfilled | src/features/users/userSlice.ts:143-150 | the first user with the payload's id is replaced, and the payload becomes current |
| UserSlice.UserState.OnDeleteFulfilled | src/features/users/userSlice.ts:161-167 | every user with the id is dropped; the current user is cleared only if it has that id |
| UserSlice.UserState.ClearCurrentUser | src/features/users/userSlice.ts:87-89 | only the current user is cleared |
| UserSlice.UserState.ClearError | src/features/users/userSlice.ts:90-92 | only the error is cleared |
| UserSlice.UserState.FetchUsers | src/features/users/userSlice.ts:20-30 | never fails; the list becomes the backend table |
| UserSlice.UserState.FetchUserById | src/features/users/userSlice.ts:32-42 | the backend's user becomes current, or "User not found" becomes the error |
| UserSlice.UserState.CreateUser | src/features/users/userSlice.ts:44-54 | a taken address becomes the error; otherwise the new user is appended to the backend and to the list |
| UserSlice.UserState.UpdateUser | src/features/users/userSlice.ts:56-69 | the merged user replaces its backend and list entries and becomes current, or the backend's error is recorded |
| UserSlice.UserState.UpdateUserKeepingSession | src/features/users/userSlice.ts:56-69 | the same thunk over the corrected backend update; the stored session user follows a self-update |
| UserSlice.UserState.DeleteUser | src/features/users/userSlice.ts:71-81 | fulfils with the id, which then leaves both the backend and the list, or "User not found" is recorded |
| OrderSlice.OrderState.constructor | src/features/orders/orderSlice.ts:12-18 | empty list, no current order, not loading, no error |
| OrderSlice.OrderState.OnPending | src/features/orders/orderSlice.ts:68-71 | loading, error cleared, data untouched |
| OrderSlice.OrderState.OnRejected | src/features/orders/orderSlice.ts:76-79 | not loading, the payload becomes the error, data untouched |
| OrderSlice.OrderState.OnFetchFulfilled | src/features/orders/orderSlice.ts:72-75 | the list is replaced by the payload |
| OrderSlice.OrderState.OnFetchByIdFulfilled | src/features/orders/orderSlice.ts:86-89 | only the current order changes |
| OrderSlice.OrderState.OnUpdateStatusFulfilled | src/features/orders/orderSlice.ts:100-107 | the first order with the payload's id is replaced, and the payload becomes current |
| OrderSlice.OrderState.ClearCurrentOrder | src/features/orders/orderSlice.ts:58-60 | only the current order is cleared |
| OrderSlice.OrderState.ClearError | src/features/orders/orderSlice.ts:61-63 | only the error is cleared |
| OrderSlice.OrderState.FetchOrders | src/features/orders/orderSlice.ts:20-28 | never fails; the list becomes the backend table |
| OrderSlice.OrderState.FetchOrderById | src/features/orders/orderSlice.ts:30-39 | the backend's order becomes current, or "Order not found" becomes the error |
| OrderSlice.OrderState.UpdateOrderStatus | src/features/orders/orderSlice.ts:41-52 | the re-stamped order replaces its backend and list entries and becomes current, or "Order not found" is recorded |
| AuthSlice.AuthState.constructor | src/features/auth/authSlice.ts:13-19 | user and token as stored; authenticated exactly when a non-empty token is stored |
| AuthSlice.AuthState.OnPending | src/features/auth/authSlice.ts:73-76 | loading, error cleared, session untouched |
| AuthSlice.AuthState.OnLogoutPending | src/features/auth/authSlice.ts:105-107 | loading, with the error kept |
| AuthSlice.AuthState.OnRejected | src/features/auth/authSlice.ts:83-86 | not loading, the payload becomes the error, session untouched |
| AuthSlice.AuthState.OnSessionFulfilled | src/features/auth/authSlice.ts:77-82 | the payload's user and token become the session, authenticated |
| AuthSlice.AuthState.OnLogoutFulfilled | src/features/auth/authSlice.ts:108-113 | user and token cleared, not authenticated |
| AuthSlice.AuthState.OnGetCurrentUserFulfilled | src/features/auth/authSlice.ts:124-128 | the user is restored and the session authenticated; the token is left as it was |
| AuthSlice.AuthState.OnGetCurrentUserRejected | src/features/auth/authSlice.ts:129-135 | the whole session is cleared and the payload recorded |
| AuthSlice.AuthState.ClearError | src/features/auth/authSlice.ts:66-68 | only the error is cleared |
| AuthSlice.AuthState.Login | src/features/auth/authSlice.ts:22-30 | known address with the demo password: that user's session is stored and current; otherwise "Invalid credentials" and nothing else changes |
| AuthSlice.AuthState.Register | src/features/auth/authSlice.ts:32-40 | the backend's refusal becomes the error with session and tables unchanged; otherwise the new viewer's session is stored and current |
| AuthSlice.AuthState.Logout | src/features/auth/authSlice.ts:42-50 | as written: always fulfils, clears the in-memory session, and leaves both storage keys in place |
| AuthSlice.AuthState.LogoutClearingStorage | src/features/auth/authSlice.ts:42-50 | corrected: also calls the backend logout, so storage is cleared together with the session |
| AuthSlice.AuthState.GetCurrentUser | src/features/auth/authSlice.ts:52-60 | a stored user authenticates the session whatever the token; without one the session is cleared with "Not authenticated" |
| ProtectedRoute.DecisionTable | src/routes/ProtectedRoute.tsx:27-44 | loading shows the loader; otherwise no session redirects to login with the location; a session renders unless a required role is set, a user is loaded and its role differs, which redirects home |
| ProtectedRoute.RoleMatchIsExact | src/routes/ProtectedRoute.tsx:38-41 | roles match exactly, with no hierarchy; without a required role, or before a user is loaded, an authenticated session renders |
| ProtectedRoute.RedirectComesWithRehydration | src/routes/ProtectedRoute.tsx:21-35 | the gate redirects to login exactly when its effect dispatches `getCurrentUser` |
| Session.MountGate | src/routes/ProtectedRoute.tsx:21-44 | the view shown is the decision on the state found; the effect rehydrates exactly when that view is the redirect to login, which unmounts the gate, and restores the stored user or records "Not authenticated"; otherwise the session is untouched |
| Session.SignOutThenOpenPage | src/components/common/Navbar.tsx:29-32 | sign in, sign out, open a protected page twice: the first opening redirects to login, but the session is restored behind the login page without credentials, and the second opening renders the page as the same user |
| Session.SignOutThenReload | src/features/auth/authSlice.ts:13-19 | after the same sign-out, a reload starts authenticated as the same user |
| Session.CorrectedSignOutThenOpenPage | src/services/mockApi.ts:295-299 | with the corrected logout, both openings redirect to login, and rehydration records "Not authenticated" |
| Session.CorrectedSignOutThenReload | src/services/mockApi.ts:295-299 | with the corrected logout, a reload starts signed out |
| Session.RenameOnProfile | src/pages/Auth/Profile.tsx:96-114 | as written: the backend takes the new name and success is shown, but the session keeps the old name and the form reverts to it |
| Session.CorrectedRenameOnProfile | src/pages/Auth/Profile.tsx:96-114 | over the corrected update the session and the form take the new name |
| PageKit.RoleTests | src/pages/Products/ProductList.tsx:34 | the editor test holds exactly for administrators and editors; every administrator passes it; with no user nobody is admin, editor or self |
| ProductForm.ProductFormValidity | src/pages/Products/ProductForm.tsx:80-105 | a form is accepted exactly when name, description and category have a visible character, the price is positive and the stock is not negative |
| ProductForm.NumericInputCoercion | src/pages/Products/ProductForm.tsx:107-113 | typing a number into price or stock stores that number, text without digits stores 0, and text inputs store the text |
| ProductForm.ProductFormPage.constructor | src/pages/Products/ProductForm.tsx:32-45 | the empty in-stock form, no errors, toast closed |
| ProductForm.ProductFormPage.Mount | src/pages/Products/ProductForm.tsx:47-57 | edit mode fetches the route's product; otherwise the current product is cleared |
| ProductForm.ProductFormPage.OnCurrentProduct | src/pages/Products/ProductForm.tsx:59-70 | in edit mode a loaded product's editable fields replace the form |
| ProductForm.ProductFormPage.OnSliceError | src/pages/Products/ProductForm.tsx:72-78 | a slice error opens an error toast with its text |
| ProductForm.ProductFormPage.HandleChange | src/pages/Products/ProductForm.tsx:107-122 | the input's field takes the value, parsed for price and stock, and only that field's error is cleared |
| ProductForm.ProductFormPage.HandleSelectChange | src/pages/Products/ProductForm.tsx:124-137 | the category or status is stored, and a category choice clears the category error |
| ProductForm.ProductFormPage.HandleSubmit | src/pages/Products/ProductForm.tsx:139-171 | an invalid form dispatches nothing; a valid one dispatches an update in edit mode and a create otherwise; success shows the matching message and goes to /products; failure shows the rejection text |
| UserForm.UserFormValidity | src/pages/Users/UserForm.tsx:80-101 | a form is accepted exactly when the name has a visible character, the address is valid, and the password is present when creating and has at least 6 characters when given |
| UserForm.SelfDemotionMessageIsLost | src/pages/Users/UserForm.tsx:139-158 | the guard's `Error` reaches the toast as "An error occurred"; showing an error's message gives the guard's text, and rejection payloads read the same |
| UserForm.UserFormPage.constructor | src/pages/Users/UserForm.tsx:28-40 | empty active viewer form, no errors, toast closed |
| UserForm.UserFormPage.Mount | src/pages/Users/UserForm.tsx:42-58 | non-administrators are sent home and nothing is dispatched; administrators fetch the edited user or clear the current one |
| UserForm.UserFormPage.OnCurrentUser | src/pages/Users/UserForm.tsx:60-70 | in edit mode a loaded user fills the form, with an empty password |
| UserForm.UserFormPage.OnSliceError | src/pages/Users/UserForm.tsx:72-78 | a slice error opens an error toast with its text |
| UserForm.UserFormPage.HandleChange | src/pages/Users/UserForm.tsx:103-118 | the input's field takes the value and only that field's error is cleared |
| UserForm.UserFormPage.HandleSelectChange | src/pages/Users/UserForm.tsx:120-125 | the role or status is stored and no error is touched |
| UserForm.UserFormPage.Send | src/pages/Users/UserForm.tsx:143-163 | dispatches an update in edit mode and a create otherwise; success shows the matching message and goes to /users; failure shows the rejection text |
| UserForm.UserFormPage.HandleSubmit | src/pages/Users/UserForm.tsx:127-164 | as written: an invalid form dispatches nothing; an administrator taking away their own admin role dispatches nothing and is shown "An error occurred"; otherwise as `Send` |
| UserForm.UserFormPage.HandleSubmitCorrected | src/pages/Users/UserForm.tsx:127-164 | corrected: the refused self-demotion shows "You can't change your own role from admin" |
| RegisterPage.RegisterFormValidity | src/pages/Auth/Register.tsx:33-63 | accepted exactly when the name has a visible character, the address is valid, the password has at least 6 characters and the confirmation repeats it; the mismatch message appears exactly when the two differ |
| RegisterPage.RegisterPageState.constructor | src/pages/Auth/Register.tsx:21-31 | empty fields, no errors, toast closed |
| RegisterPage.RegisterPageState.HandleSubmit | src/pages/Auth/Register.tsx:65-79 | an invalid form sends nothing; a valid one is sent as typed; success goes home, failure opens the toast |
| RegisterPage.RegisterPageState.HandleToastOpenChange | src/pages/Auth/Register.tsx:160-163 | the toast follows `open`, and closing it clears the session error and nothing else |
| LoginPage.LoginFormValidity | src/pages/Auth/Login.tsx:25-38 | credentials are sent exactly when the address has a visible character and the password is non-empty; the format is not checked, and a password of spaces passes |
| LoginPage.LoginPageState.constructor | src/pages/Auth/Login.tsx:20-23 | empty credentials, no errors, toast closed |
| LoginPage.LoginPageState.HandleSubmit | src/pages/Auth/Login.tsx:40-54 | invalid input sends nothing; valid credentials are sent as typed; success goes home, failure opens the toast |
| LoginPage.LoginPageState.HandleToastOpenChange | src/pages/Auth/Login.tsx:115-118 | the toast follows `open`, and closing it clears the session error and nothing else |
| LoginPage.LoginPageState.SignIn | src/pages/Auth/Login.tsx:40-54 | against the backend: the page goes home exactly for a known address with the demo password, and otherwise opens the toast over "Invalid credentials" |
| ProfilePage.ProfileFormsValidity | src/pages/Auth/Profile.tsx:53-87 | the name form is accepted exactly for a name with a visible character; the password form exactly when a current password is given and the new one has at least 6 characters and is repeated |
| ProfilePage.ProfileSaveTouchesOnlyNameAndStatus | src/services/mockApi.ts:380-383 | merging a profile save changes at most the stored user's name and status |
| ProfilePage.StalePasswordErrorsSurvive | src/pages/Auth/Profile.tsx:131-136 | a mismatch reported by one submission is still shown after it is fixed and a wrong current password is submitted |
| ProfilePage.ProfilePageState.constructor | src/pages/Auth/Profile.tsx:22-36 | empty fields, no errors, toast closed, password section closed |
| ProfilePage.ProfilePageState.OnSessionUser | src/pages/Auth/Profile.tsx:38-43 | a signed-in user's name and address fill the form |
| ProfilePage.ProfilePageState.OnSliceError | src/pages/Auth/Profile.tsx:45-51 | a user-slice error opens an error toast with its text |
| ProfilePage.ProfilePageState.HandleProfileSubmit | src/pages/Auth/Profile.tsx:89-120 | a valid name with a user sends the update and, on its success, the refresh; success is shown only when both succeed, and otherwise the first rejection text |
| ProfilePage.ProfilePageState.HandlePasswordSubmit | src/pages/Auth/Profile.tsx:122-156 | as written: a valid form with a wrong current password keeps the errors shown before the submission and adds "Incorrect password"; the demo password clears the fields, closes the section and shows success |
| ProfilePage.ProfilePageState.HandlePasswordSubmitCorrected | src/pages/Auth/Profile.tsx:122-156 | corrected: a refused form shows "Incorrect password" alone |
| ProductList.CategoryOptionsListing | src/pages/Products/ProductList.tsx:71 | the options are "all" followed by every category once, in order of first appearance, and nothing else |
| ProductList.CategoryOptionsDistinct | src/pages/Products/ProductList.tsx:71 | the options repeat an entry exactly when some category is literally "all" |
| ProductList.ProductFilterSpec | src/pages/Products/ProductList.tsx:74-82 | the listed products are exactly the matching ones in catalogue order, each as often as the catalogue holds it; an empty search with both filters on "all" lists everything; lower-casing the search term changes nothing |
| ProductList.ProductListPage.constructor | src/pages/Products/ProductList.tsx:24-32 | empty search, both filters "all", nothing selected, toast closed |
| ProductList.ProductListPage.Mount | src/pages/Products/ProductList.tsx:36-38 | the list becomes the backend catalogue |
| ProductList.ProductListPage.OnSliceError | src/pages/Products/ProductList.tsx:40-46 | a slice error opens an error toast with its text |
| ProductList.ProductListPage.HandleDeleteClick | src/pages/Products/ProductList.tsx:48-51 | the product is selected and the confirmation opens |
| ProductList.ProductListPage.HandleConfirmDelete | src/pages/Products/ProductList.tsx:53-68 | with nothing selected nothing changes; a selected product is deleted: when the backend has it, its first entry is spliced out of the backend, every listed product with its id is filtered out of the list, the current product is cleared only if it has that id, and success is shown; otherwise "Product not found" is the slice error and the fixed "Failed to delete product" is shown with both tables untouched; the confirmation closes and the selection is dropped |
| UserList.UserFilterSpec | src/pages/Users/UserList.tsx:82-90 | for any search and any role and status filter strings, the listed users are exactly the matching ones, in table order, each as often as the table holds it; an empty search with both filters on "all" lists everyone |
| UserList.RoleFilterSpec | src/pages/Users/UserList.tsx:86 | a role filter naming a role lists users of that role only, and a filter that is neither "all" nor a role lists nobody |
| UserList.UserListPage.constructor | src/pages/Users/UserList.tsx:24-31 | empty search, both filters "all", nothing selected, and that selection is not the signed-in account |
| UserList.UserListPage.Mount | src/pages/Users/UserList.tsx:33-41 | non-administrators are sent home; administrators fetch the table |
| UserList.UserListPage.OnSliceError | src/pages/Users/UserList.tsx:43-49 | a slice error opens an error toast with its text |
| UserList.UserListPage.HandleDeleteClick | src/pages/Users/UserList.tsx:51-62 | one's own account gives a warning and is not selected; any other account is selected; the selection is never the signed-in account |
| UserList.UserListPage.HandleConfirmDelete | src/pages/Users/UserList.tsx:64-79 | with nothing selected nothing changes; a selected account is deleted: when the backend has it, its first entry is spliced out of the backend, the list loses exactly the users with its id, the current user is cleared only if it has that id, and success is shown; otherwise "User not found" is the slice error and the fixed "Failed to delete user" is shown with both tables untouched; the selection is never the signed-in account, whose record survives |
| UserDetail.UserDetailPage.constructor | src/pages/Users/UserDetail.tsx:27-30 | confirmation closed, toast closed |
| UserDetail.UserDetailPage.Mount | src/pages/Users/UserDetail.tsx:32-42 | non-administrators are sent home; administrators with an id fetch that user |
| UserDetail.UserDetailPage.OnSliceError | src/pages/Users/UserDetail.tsx:44-50 | a slice error opens an error toast with its text |
| UserDetail.UserDetailPage.HandleDelete | src/pages/Users/UserDetail.tsx:52-78 | one's own account gives a warning and leaves backend and slice alone; any other is deleted: when the backend has it, its first entry is spliced out of the backend, the list loses exactly the users with its id, the current user is cleared only if it has that id, success is shown and the page returns to /users; otherwise "User not found" is the slice error and the fixed failure message is shown; the signed-in user's record survives |
| Dashboard.MountRequests | src/pages/Dashboard.tsx:21-26 | the catalogue is always fetched first, and the user table exactly for an administrator |
| Dashboard.RevenueAppend | src/pages/Dashboard.tsx:32 | revenue is additive over any split of the catalogue |
| Dashboard.RevenueBounds | src/pages/Dashboard.tsx:32 | with no negative price or stock the revenue is not negative, and it is 0 when nothing is in stock |
| Dashboard.MetricsBounds | src/pages/Dashboard.tsx:28-34 | the attention count is at most the product count and is 0 exactly when nothing is low or out of stock; loading when either slice loads |
| Dashboard.SeedDashboard | src/pages/Dashboard.tsx:31-34 | on the seeded tables: 4 products worth 88999.2, 2 needing attention, 3 users |
| OrderDetail.ButtonMatchesGuard | src/pages/Orders/OrderDetail.tsx:209 | an enabled button with a chosen status dispatches; a dispatch never re-sends the order's own status; right after synchronising, the button is disabled |
| OrderDetail.OrderDetailPage.constructor | src/pages/Orders/OrderDetail.tsx:26-30 | no status selected, not updating, toast closed |
| OrderDetail.OrderDetailPage.Mount | src/pages/Orders/OrderDetail.tsx:34-38 | with an id, the backend's order becomes current, or "Order not found" becomes the error |
| OrderDetail.OrderDetailPage.OnCurrentOrder | src/pages/Orders/OrderDetail.tsx:40-44 | a loaded order's status becomes the selection |
| OrderDetail.OrderDetailPage.SelectStatus | src/pages/Orders/OrderDetail.tsx:193 | the chosen status is recorded and nothing is sent |
| OrderDetail.OrderDetailPage.OnSliceError | src/pages/Orders/OrderDetail.tsx:46-52 | a slice error opens an error toast with its text |
| OrderDetail.OrderDetailPage.HandleStatusChange | src/pages/Orders/OrderDetail.tsx:54-75 | dispatches exactly when there is an id, a chosen status, and that status differs from the current order's; when the backend has the order, its first entry is replaced by its copy with the chosen status and the request time, the same copy replaces the first listed order with the id and becomes the current order, and success is shown; otherwise "Order not found" is shown and recorded with both tables untouched; nothing changes without a dispatch |

## Left out

- Timers: the 500 ms backend delays and the 1.5 s navigation delays are left out. Navigation is recorded when it is scheduled.
- Interleavings: React rendering, Redux dispatch machinery and concurrent requests are not modelled. Every request runs to completion before the next one starts.
- JSON: storage holds the session user as a value, and `JSON.parse(JSON.stringify(u))` is taken to give `u` back.
- Clock: `new Date().toISOString()` is the `now` parameter.
- Seed orders: the seeded order table is the constructor's `seedOrders` parameter. The seeded users and products are written out.
- Rendering: markup, icons and styling are left out, including the grid/table view switch of the product list. The `isEditor` action buttons are covered only through `PageKit.IsEditor`.
- Intl: `formatCurrency`, `formatDate` and `formatDateTime` are left out, because they depend on the platform's Intl data.
- `generateId`: left out, because it is random and no core code calls it.
- `src/services/api.ts` and the route table (`src/routes/index.tsx`) are not part of this model. The gate is run without a role requirement, as the route table mounts it.
- Cleanup on unmount: the `clearCurrentProduct`/`clearCurrentUser` cleanup of the form pages is left out. The slice methods for it exist.
- Plain setters: the Register/Login/Profile input setters are plain field assignments on the page classes.
- Text: strings are sequences of code points. `length` and `slice` in UTF-16 units differ only outside the Basic Multilingual Plane. Case mapping is ASCII only.
- Numbers: prices, stock and revenue are exact reals. Floating-point rounding, `Infinity`, and `parseFloat` exponents that overflow a double are left out.
- Store.UpdateUser and Store.CreateUser: do not keep a `password` field in stored users. The `...userData` spread of both copies it into the record, but nothing in the core reads it back.
- ProductForm.ProductFormPage.HandleSubmit: takes the awaited settlement as a parameter. Likewise `UserForm.UserFormPage.HandleSubmit`, `RegisterPage.RegisterPageState.HandleSubmit`, `LoginPage.LoginPageState.HandleSubmit` and `ProfilePage.ProfilePageState.HandleProfileSubmit`. `LoginPage.LoginPageState.SignIn` and the `Session` scenarios connect this to the backend.

## Findings

| source | as written | input that shows it | evidently intended | confidence | as-written member | corrected member |
|---|---|---|---|---|---|---|
| src/features/auth/authSlice.ts:42-50 | the `logout` thunk only returns; it never calls the backend logout, so `token` and `user` stay in storage | sign in as admin@example.com / password, then sign out and open a protected page twice, or reload | signing out ends the session for good | high (not executed) | Session.SignOutThenOpenPage | Session.CorrectedSignOutThenOpenPage |
| src/pages/Users/UserForm.tsx:139-158 | the self-demotion guard throws an `Error`, but the catch shows only string values, so the toast reads "An error occurred" | an administrator edits their own account, picks the editor role and saves | the toast explains "You can't change your own role from admin" | high (not executed) | UserForm.UserFormPage.HandleSubmit | UserForm.UserFormPage.HandleSubmitCorrected |
| src/pages/Auth/Profile.tsx:131-136 | the "Incorrect password" errors are built from the errors of the previous render, so messages the new validation cleared come back | submit ("secret", "abcdef", "abcdeg"), fix the confirmation to "abcdef" and submit again | only "Incorrect password" is shown | high (not executed) | ProfilePage.ProfilePageState.HandlePasswordSubmit | ProfilePage.ProfilePageState.HandlePasswordSubmitCorrected |
| src/pages/Auth/Profile.tsx:96-114 | the refresh after a profile save reads the stored session copy, which `updateUser` never rewrites, so the session keeps the old name and the form reverts | signed in as Admin User, rename to "Root" and save: the success toast appears, but the form shows "Admin User" again | the session and the form show the new name | medium (not executed) | Session.RenameOnProfile | Session.CorrectedRenameOnProfile |

`MockApi.IdCollidesAfterDelete` documents a related behaviour without claiming it as a defect. After a deletion, length-based ids can repeat an id that is still in use, and the backend's `findIndex` then reaches only the first of the two records.

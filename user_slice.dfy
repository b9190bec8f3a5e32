/**
 * The user request state: the user table mirror, the user being viewed or
 * edited, a loading flag and the last error. Each reducer case is a method;
 * each thunk dispatches the pending case, calls the backend and dispatches the
 * fulfilled or rejected case.
 */
module UserSlice {
  import opened Wrappers
  import opened Types
  import opened Seqs
  import opened MockApi
  import opened Thunks

  const FetchUsersFallback := "Failed to fetch users"
  const FetchUserFallback := "Failed to fetch user"
  const CreateUserFallback := "Failed to create user"
  const UpdateUserFallback := "Failed to update user"
  const DeleteUserFallback := "Failed to delete user"

  class UserState {
    var users: seq<User>
    var currentUser: Option<User>
    var loading: bool
    var error: Option<string>

    constructor ()
      ensures users == [] && currentUser == None && !loading && error == None
    {
      users := [];
      currentUser := None;
      loading := false;
      error := None;
    }

    /** Every pending case: loading, error cleared, data untouched. */
    method OnPending()
      modifies this
      ensures loading && error == None
      ensures users == old(users) && currentUser == old(currentUser)
    {
      loading := true;
      error := None;
    }

    /** Every rejected case: the payload becomes the error, data untouched. */
    method OnRejected(payload: string)
      modifies this
      ensures !loading && error == Some(payload)
      ensures users == old(users) && currentUser == old(currentUser)
    {
      loading := false;
      error := Some(payload);
    }

    /** `fetchUsers.fulfilled`: the whole list is replaced. */
    method OnFetchFulfilled(payload: seq<User>)
      modifies this
      ensures !loading && users == payload
      ensures currentUser == old(currentUser) && error == old(error)
    {
      loading := false;
      users := payload;
    }

    /** `fetchUserById.fulfilled`: only the current user (and loading) change. */
    method OnFetchByIdFulfilled(payload: User)
      modifies this
      ensures !loading && currentUser == Some(payload)
      ensures users == old(users) && error == old(error)
    {
      loading := false;
      currentUser := Some(payload);
    }

    /** `createUser.fulfilled`: the payload is appended at the end. */
    method OnCreateFulfilled(payload: User)
      modifies this
      ensures !loading && users == old(users) + [payload]
      ensures currentUser == old(currentUser) && error == old(error)
    {
      loading := false;
      users := users + [payload];
    }

    /** `updateUser.fulfilled`: the first user with the payload's id is replaced; the payload becomes current. */
    method OnUpdateFulfilled(payload: User)
      modifies this
      ensures !loading && users == ReplaceFirst(old(users), UserId, payload)
      ensures currentUser == Some(payload) && error == old(error)
    {
      loading := false;
      var i := IndexOf(MapSeq(users, UserId), payload.id);
      if i != -1 {
        users := users[i := payload];
      }
      currentUser := Some(payload);
    }

    /** `deleteUser.fulfilled`: every user with the id goes; the current one is cleared only if it has the id. */
    method OnDeleteFulfilled(id: string)
      modifies this
      ensures !loading && users == Filter(old(users), KeyDiffers(UserId, id))
      ensures currentUser == if old(currentUser).Some? && old(currentUser).value.id == id then None
                                else old(currentUser)
      ensures error == old(error)
    {
      loading := false;
      users := Filter(users, KeyDiffers(UserId, id));
      if currentUser.Some? && currentUser.value.id == id {
        currentUser := None;
      }
    }

    method ClearCurrentUser()
      modifies this
      ensures currentUser == None
      ensures users == old(users) && loading == old(loading) && error == old(error)
    {
      currentUser := None;
    }

    method ClearError()
      modifies this
      ensures error == None
      ensures users == old(users) && currentUser == old(currentUser) && loading == old(loading)
    {
      error := None;
    }

    /** `fetchUsers`: never fails; the mirror becomes the backend table. */
    method FetchUsers(store: Store) returns (s: Settlement<seq<User>>)
      modifies this
      ensures s == Fulfilled(store.users)
      ensures !loading && error == None && users == store.users && currentUser == old(currentUser)
    {
      OnPending();
      var r := store.GetUsers();
      s := SettleWithFallback(r, FetchUsersFallback);
      OnFetchFulfilled(r.value.data);
    }

    /** `fetchUserById`: the backend's user becomes current, or its error is recorded. */
    method FetchUserById(store: Store, id: string) returns (s: Settlement<User>)
      modifies this
      ensures !loading && users == old(users)
      ensures id !in MapSeq(store.users, UserId) ==>
                s == Rejected("User not found") && error == Some("User not found") &&
                currentUser == old(currentUser)
      ensures id in MapSeq(store.users, UserId) ==>
                var p := store.users[IndexOf(MapSeq(store.users, UserId), id)];
                s == Fulfilled(p) && currentUser == Some(p) && error == None
    {
      OnPending();
      var r := store.GetUserById(id);
      s := SettleWithFallback(r, FetchUserFallback);
      match s
      case Fulfilled(p) => OnFetchByIdFulfilled(p);
      case Rejected(m) => OnRejected(m);
    }

    /** `createUser`: a taken address is recorded as the error; otherwise the new user is appended to the backend and to the mirror. */
    method CreateUser(store: Store, data: UserFormData, now: string) returns (s: Settlement<User>)
      modifies this, store
      ensures store.products == old(store.products) && store.orders == old(store.orders)
      ensures store.storedToken == old(store.storedToken) && store.storedUser == old(store.storedUser)
      ensures !loading && currentUser == old(currentUser)
      ensures data.email in MapSeq(old(store.users), UserEmail) ==>
                s == Rejected("Email already in use") && error == Some("Email already in use") &&
                store.users == old(store.users) && users == old(users)
      ensures data.email !in MapSeq(old(store.users), UserEmail) ==>
                var u := CreatedUser(|old(store.users)|, data, now);
                s == Fulfilled(u) && store.users == old(store.users) + [u] && users == old(users) + [u] && error == None
    {
      OnPending();
      var r := store.CreateUser(data, now);
      s := SettleWithFallback(r, CreateUserFallback);
      match s
      case Fulfilled(u) => OnCreateFulfilled(u);
      case Rejected(m) => OnRejected(m);
    }

    /**
     * `updateUser`: an unknown id or a colliding new address is recorded as the
     * error; otherwise the merged user replaces its backend entry and its mirror
     * entry, and becomes current.
     */
    method UpdateUser(store: Store, id: string, data: UserFormData) returns (s: Settlement<User>)
      modifies this, store
      ensures store.products == old(store.products) && store.orders == old(store.orders)
      ensures store.storedToken == old(store.storedToken) && store.storedUser == old(store.storedUser)
      ensures !loading
      ensures var i := IndexOf(MapSeq(old(store.users), UserId), id);
              if i == -1 || (data.email != old(store.users)[i].email && data.email in MapSeq(old(store.users), UserEmail)) then
                var m := if i == -1 then "User not found" else "Email already in use";
                s == Rejected(m) && error == Some(m) &&
                store.users == old(store.users) && users == old(users) && currentUser == old(currentUser)
              else
                var u := MergeUser(old(store.users)[i], data);
                s == Fulfilled(u) && store.users == old(store.users)[i := u] &&
                users == ReplaceFirst(old(users), UserId, u) && currentUser == Some(u) && error == None
    {
      OnPending();
      var r := store.UpdateUser(id, data);
      s := SettleWithFallback(r, UpdateUserFallback);
      match s
      case Fulfilled(u) => OnUpdateFulfilled(u);
      case Rejected(m) => OnRejected(m);
    }

    /** `updateUser` over the backend update that keeps the stored session copy in step. */
    method UpdateUserKeepingSession(store: Store, id: string, data: UserFormData) returns (s: Settlement<User>)
      modifies this, store
      ensures store.products == old(store.products) && store.orders == old(store.orders)
      ensures store.storedToken == old(store.storedToken)
      ensures !loading
      ensures var i := IndexOf(MapSeq(old(store.users), UserId), id);
              if i == -1 || (data.email != old(store.users)[i].email && data.email in MapSeq(old(store.users), UserEmail)) then
                var m := if i == -1 then "User not found" else "Email already in use";
                s == Rejected(m) && error == Some(m) && store.storedUser == old(store.storedUser) &&
                store.users == old(store.users) && users == old(users) && currentUser == old(currentUser)
              else
                var u := MergeUser(old(store.users)[i], data);
                s == Fulfilled(u) && store.users == old(store.users)[i := u] &&
                users == ReplaceFirst(old(users), UserId, u) && currentUser == Some(u) && error == None &&
                store.storedUser == if old(store.storedUser).Some? && old(store.storedUser).value.id == id
                                    then Some(ToAuthUser(u)) else old(store.storedUser)
    {
      OnPending();
      var r := store.UpdateUserKeepingSession(id, data);
      s := SettleWithFallback(r, UpdateUserFallback);
      match s
      case Fulfilled(u) => OnUpdateFulfilled(u);
      case Rejected(m) => OnRejected(m);
    }

    /** `deleteUser`: fulfils with the requested id, which leaves the backend and the mirror. */
    method DeleteUser(store: Store, id: string) returns (s: Settlement<string>)
      modifies this, store
      ensures store.products == old(store.products) && store.orders == old(store.orders)
      ensures store.storedToken == old(store.storedToken) && store.storedUser == old(store.storedUser)
      ensures !loading
      ensures var i := IndexOf(MapSeq(old(store.users), UserId), id);
              if i == -1 then
                s == Rejected("User not found") && error == Some("User not found") &&
                store.users == old(store.users) && users == old(users) && currentUser == old(currentUser)
              else
                s == Fulfilled(id) && store.users == RemoveAt(old(store.users), i) &&
                users == Filter(old(users), KeyDiffers(UserId, id)) && error == None &&
                currentUser == if old(currentUser).Some? && old(currentUser).value.id == id then None
                                  else old(currentUser)
    {
      OnPending();
      var r := store.DeleteUser(id);
      if r.Err? {
        s := Rejected(FallbackMessage(ErrorObject(r.error), DeleteUserFallback));
        OnRejected(s.payload);
      } else {
        s := Fulfilled(id);
        OnDeleteFulfilled(id);
      }
    }
  }
}

/**
 * The user detail page, for administrators only: it loads the user of its
 * route and deletes it on confirmation, refusing to delete the signed-in
 * account.
 */
module UserDetail {
  import opened Wrappers
  import opened Types
  import opened Text
  import opened Seqs
  import opened MockApi
  import opened Thunks
  import opened PageKit
  import opened UserSlice

  const HomePath := "/"
  const UsersPath := "/users"
  const SelfDeleteMessage := "You can't delete your own account"
  const UserDeletedMessage := "User deleted successfully"
  const UserDeleteFailedMessage := "Failed to delete user"

  class UserDetailPage {
    const id: Option<string>
    const authUser: Option<AuthUser>
    var deleteModalOpen: bool
    var toast: Toast
    var navigation: Option<string>

    constructor (id: Option<string>, authUser: Option<AuthUser>)
      ensures this.id == id && this.authUser == authUser
      ensures !deleteModalOpen && toast == ClosedToast && navigation == None
    {
      this.id := id;
      this.authUser := authUser;
      deleteModalOpen := false;
      toast := ClosedToast;
      navigation := None;
    }

    /** The mount effect: anyone but an administrator is sent home; otherwise the route's user is fetched. */
    method Mount(slice: UserState, store: Store)
      modifies this, slice
      ensures !IsAdmin(authUser) ==> navigation == Some(HomePath) && slice.currentUser == old(slice.currentUser)
      ensures IsAdmin(authUser) && !Truthy(id) ==> navigation == old(navigation) && slice.currentUser == old(slice.currentUser)
      ensures IsAdmin(authUser) && Truthy(id) ==>
                navigation == old(navigation) &&
                (id.value in MapSeq(store.users, UserId) ==>
                   slice.currentUser == Some(store.users[IndexOf(MapSeq(store.users, UserId), id.value)])) &&
                (id.value !in MapSeq(store.users, UserId) ==> slice.error == Some("User not found"))
      ensures slice.users == old(slice.users)
      ensures deleteModalOpen == old(deleteModalOpen) && toast == old(toast)
    {
      if !IsAdmin(authUser) {
        navigation := Some(HomePath);
        return;
      }
      if Truthy(id) {
        var _ := slice.FetchUserById(store, id.value);
      }
    }

    /** The error effect: a slice error opens an error notification with its text. */
    method OnSliceError(error: Option<string>)
      modifies this
      ensures toast == if Truthy(error) then Toast(true, error.value, ErrorToast) else old(toast)
      ensures deleteModalOpen == old(deleteModalOpen) && navigation == old(navigation)
    {
      if Truthy(error) {
        toast := Toast(true, error.value, ErrorToast);
      }
    }

    /**
     * `handleDelete`: the signed-in account is refused with a warning and the
     * backend is left alone; any other is deleted through the request state,
     * and success returns to the table. The confirmation closes whenever there
     * is an id.
     */
    method HandleDelete(slice: UserState, store: Store)
      modifies this, slice, store
      ensures store.products == old(store.products) && store.orders == old(store.orders)
      ensures !Truthy(id) ==>
                deleteModalOpen == old(deleteModalOpen) && toast == old(toast) && navigation == old(navigation) &&
                store.users == old(store.users)
      ensures Truthy(id) && IsSelf(id.value, authUser) ==>
                !deleteModalOpen && toast == Toast(true, SelfDeleteMessage, WarningToast) &&
                navigation == old(navigation) && store.users == old(store.users) && slice.users == old(slice.users)
      ensures Truthy(id) && !IsSelf(id.value, authUser) ==>
                var found := id.value in MapSeq(old(store.users), UserId);
                !deleteModalOpen &&
                (found ==> toast == Toast(true, UserDeletedMessage, SuccessToast) && navigation == Some(UsersPath) &&
                           id.value !in MapSeq(slice.users, UserId)) &&
                (!found ==> toast == Toast(true, UserDeleteFailedMessage, ErrorToast) && navigation == old(navigation) &&
                            store.users == old(store.users))
      ensures authUser.Some? && authUser.value.id in MapSeq(old(store.users), UserId) ==>
                authUser.value.id in MapSeq(store.users, UserId)
      ensures store.storedToken == old(store.storedToken) && store.storedUser == old(store.storedUser)
      ensures !Truthy(id) || IsSelf(id.value, authUser) ==>
                slice.users == old(slice.users) && slice.currentUser == old(slice.currentUser) &&
                slice.loading == old(slice.loading) && slice.error == old(slice.error)
      ensures Truthy(id) && !IsSelf(id.value, authUser) ==>
                var i := IndexOf(MapSeq(old(store.users), UserId), id.value);
                !slice.loading &&
                (i == -1 ==>
                   slice.error == Some("User not found") && slice.users == old(slice.users) &&
                   slice.currentUser == old(slice.currentUser)) &&
                (i != -1 ==>
                   store.users == RemoveAt(old(store.users), i) &&
                   slice.users == Filter(old(slice.users), KeyDiffers(UserId, id.value)) && slice.error == None &&
                   slice.currentUser == if old(slice.currentUser).Some? && old(slice.currentUser).value.id == id.value
                                        then None else old(slice.currentUser))
    {
      if !Truthy(id) {
        return;
      }
      if IsSelf(id.value, authUser) {
        toast := Toast(true, SelfDeleteMessage, WarningToast);
        deleteModalOpen := false;
        return;
      }
      var ids := MapSeq(store.users, UserId);
      var i := IndexOf(ids, id.value);
      FilterRemovesKey(slice.users, UserId, id.value);
      var s := slice.DeleteUser(store, id.value);
      if s.Fulfilled? {
        if authUser.Some? && authUser.value.id in ids {
          MapSeqRemove(old(store.users), UserId, i);
          RemoveAtKeepsOthers(ids, i, authUser.value.id);
        }
        toast := Toast(true, UserDeletedMessage, SuccessToast);
        navigation := Some(UsersPath);
      } else {
        toast := Toast(true, UserDeleteFailedMessage, ErrorToast);
      }
      deleteModalOpen := false;
    }

    /** The delete button is disabled on the signed-in user's own page. */
    predicate DeleteDisabled(shown: User) {
      IsSelf(shown.id, authUser)
    }

    /** The page shows only a loader while loading or before a user is loaded. */
    predicate ShowsLoader(loading: bool, current: Option<User>) {
      loading || current.None?
    }
  }
}

/**
 * The user table page, for administrators only: the search and filters that
 * decide which users are listed, and the delete flow, which never lets the
 * signed-in user select their own account.
 */
module UserList {
  import opened Wrappers
  import opened Types
  import opened Text
  import opened Seqs
  import opened MockApi
  import opened Thunks
  import opened PageKit
  import opened UserSlice

  const AllOption := "all"
  const HomePath := "/"
  const SelfDeleteMessage := "You can't delete your own account"
  const UserDeletedMessage := "User deleted successfully"
  const UserDeleteFailedMessage := "Failed to delete user"

  /** The search and the two filters, as the table applies them to one user. */
  predicate MatchesUser(u: User, searchTerm: string, roleFilter: string, statusFilter: string) {
    (Contains(ToLower(u.name), ToLower(searchTerm)) || Contains(ToLower(u.email), ToLower(searchTerm))) &&
    (roleFilter == AllOption || RoleName(u.role) == roleFilter) &&
    (statusFilter == AllOption || UserStatusName(u.status) == statusFilter)
  }

  function Matcher(searchTerm: string, roleFilter: string, statusFilter: string): User -> bool {
    u => MatchesUser(u, searchTerm, roleFilter, statusFilter)
  }

  /** `filteredUsers`. */
  function FilterUsers(users: seq<User>, searchTerm: string, roleFilter: string, statusFilter: string): seq<User> {
    Filter(users, Matcher(searchTerm, roleFilter, statusFilter))
  }

  /**
   * The listed users are the matching ones, in table order, each as often as
   * the table holds it, whatever the search and the filters are; with an empty
   * search and both filters on "all" everyone is listed.
   */
  lemma UserFilterSpec(users: seq<User>, searchTerm: string, roleFilter: string, statusFilter: string)
    ensures var r := FilterUsers(users, searchTerm, roleFilter, statusFilter);
            Sublist(r, users) &&
            (forall k :: 0 <= k < |r| ==> r[k] in users && MatchesUser(r[k], searchTerm, roleFilter, statusFilter)) &&
            (forall k :: 0 <= k < |users| && MatchesUser(users[k], searchTerm, roleFilter, statusFilter) ==>
               users[k] in r) &&
            (forall u :: multiset(r)[u] ==
               if MatchesUser(u, searchTerm, roleFilter, statusFilter) then multiset(users)[u] else 0)
    ensures FilterUsers(users, "", AllOption, AllOption) == users
  {
    var r := FilterUsers(users, searchTerm, roleFilter, statusFilter);
    forall k | 0 <= k < |r| ensures MatchesUser(r[k], searchTerm, roleFilter, statusFilter) {
      assert Matcher(searchTerm, roleFilter, statusFilter)(r[k]);
    }
    forall k | 0 <= k < |users| && MatchesUser(users[k], searchTerm, roleFilter, statusFilter)
      ensures users[k] in r
    {
      assert Matcher(searchTerm, roleFilter, statusFilter)(users[k]);
    }
    forall u ensures multiset(r)[u] ==
      if MatchesUser(u, searchTerm, roleFilter, statusFilter) then multiset(users)[u] else 0
    {
      FilterCounts(users, Matcher(searchTerm, roleFilter, statusFilter), u);
    }
    forall k | 0 <= k < |users| ensures Matcher("", AllOption, AllOption)(users[k]) {
      ContainsEmpty(ToLower(users[k].name));
    }
    FilterKeepsAll(users, Matcher("", AllOption, AllOption));
  }

  /**
   * A role filter that names a role lists users of exactly that role; any
   * other string but "all" lists nobody.
   */
  lemma RoleFilterSpec(users: seq<User>, searchTerm: string, roleFilter: string, statusFilter: string)
    ensures var r := FilterUsers(users, searchTerm, roleFilter, statusFilter);
            ParseRole(roleFilter).Some? ==> forall k :: 0 <= k < |r| ==> r[k].role == ParseRole(roleFilter).value
    ensures roleFilter != AllOption && ParseRole(roleFilter).None? ==>
              FilterUsers(users, searchTerm, roleFilter, statusFilter) == []
  {
    var r := FilterUsers(users, searchTerm, roleFilter, statusFilter);
    RoleNamesAreExact(roleFilter);
    forall k | 0 <= k < |r| ensures RoleName(r[k].role) == roleFilter || roleFilter == AllOption {
      assert Matcher(searchTerm, roleFilter, statusFilter)(r[k]);
      RoleNamesAreExact(RoleName(r[k].role));
    }
  }

  /** The table shows only a loader while the first load is running. */
  predicate ShowsLoader(loading: bool, users: seq<User>) {
    loading && |users| == 0
  }

  class UserListPage {
    const currentUser: Option<AuthUser>
    var searchTerm: string
    var roleFilter: string
    var statusFilter: string
    var deleteModalOpen: bool
    var userToDelete: Option<string>
    var toast: Toast
    var navigation: Option<string>

    /** The selected account is never the signed-in one. */
    predicate SelectionIsNotSelf()
      reads this
    {
      userToDelete.None? || !IsSelf(userToDelete.value, currentUser)
    }

    constructor (currentUser: Option<AuthUser>)
      ensures this.currentUser == currentUser
      ensures searchTerm == "" && roleFilter == AllOption && statusFilter == AllOption
      ensures !deleteModalOpen && userToDelete == None && toast == ClosedToast && navigation == None
      ensures SelectionIsNotSelf()
    {
      this.currentUser := currentUser;
      searchTerm := "";
      roleFilter := AllOption;
      statusFilter := AllOption;
      deleteModalOpen := false;
      userToDelete := None;
      toast := ClosedToast;
      navigation := None;
    }

    /** The mount effect: anyone but an administrator is sent home; otherwise the table is fetched. */
    method Mount(slice: UserState, store: Store)
      modifies this, slice
      ensures !IsAdmin(currentUser) ==>
                navigation == Some(HomePath) && slice.users == old(slice.users) && slice.error == old(slice.error)
      ensures IsAdmin(currentUser) ==>
                navigation == old(navigation) && slice.users == store.users && slice.error == None
      ensures userToDelete == old(userToDelete) && deleteModalOpen == old(deleteModalOpen) && toast == old(toast)
    {
      if !IsAdmin(currentUser) {
        navigation := Some(HomePath);
        return;
      }
      var _ := slice.FetchUsers(store);
    }

    /** The error effect: a slice error opens an error notification with its text. */
    method OnSliceError(error: Option<string>)
      modifies this
      ensures toast == if Truthy(error) then Toast(true, error.value, ErrorToast) else old(toast)
      ensures searchTerm == old(searchTerm) && roleFilter == old(roleFilter) && statusFilter == old(statusFilter)
      ensures deleteModalOpen == old(deleteModalOpen) && userToDelete == old(userToDelete)
      ensures navigation == old(navigation)
    {
      if Truthy(error) {
        toast := Toast(true, error.value, ErrorToast);
      }
    }

    /** `handleDeleteClick`: one's own account is refused with a warning; any other is selected for confirmation. */
    method HandleDeleteClick(id: string)
      modifies this
      ensures IsSelf(id, currentUser) ==>
                toast == Toast(true, SelfDeleteMessage, WarningToast) &&
                userToDelete == old(userToDelete) && deleteModalOpen == old(deleteModalOpen)
      ensures !IsSelf(id, currentUser) ==> userToDelete == Some(id) && deleteModalOpen && toast == old(toast)
      ensures old(SelectionIsNotSelf()) ==> SelectionIsNotSelf()
      ensures searchTerm == old(searchTerm) && roleFilter == old(roleFilter) && statusFilter == old(statusFilter)
      ensures navigation == old(navigation)
    {
      if IsSelf(id, currentUser) {
        toast := Toast(true, SelfDeleteMessage, WarningToast);
        return;
      }
      userToDelete := Some(id);
      deleteModalOpen := true;
    }

    /**
     * `handleConfirmDelete`: with an account selected, it is deleted through the
     * request state; success is reported exactly when the backend had it. The
     * signed-in user's own record always survives. The confirmation closes and
     * the selection is dropped either way; without a selection nothing happens.
     */
    method HandleConfirmDelete(slice: UserState, store: Store)
      requires SelectionIsNotSelf()
      modifies this, slice, store
      ensures SelectionIsNotSelf()
      ensures searchTerm == old(searchTerm) && roleFilter == old(roleFilter) && statusFilter == old(statusFilter)
      ensures navigation == old(navigation)
      ensures store.products == old(store.products) && store.orders == old(store.orders)
      ensures currentUser.Some? && currentUser.value.id in MapSeq(old(store.users), UserId) ==>
                currentUser.value.id in MapSeq(store.users, UserId)
      ensures !Truthy(old(userToDelete)) ==>
                deleteModalOpen == old(deleteModalOpen) && userToDelete == old(userToDelete) &&
                toast == old(toast) && store.users == old(store.users) && slice.users == old(slice.users)
      ensures Truthy(old(userToDelete)) ==>
                var id := old(userToDelete).value;
                var found := id in MapSeq(old(store.users), UserId);
                !deleteModalOpen && userToDelete == None &&
                toast == (if found then Toast(true, UserDeletedMessage, SuccessToast)
                          else Toast(true, UserDeleteFailedMessage, ErrorToast)) &&
                (found ==> id !in MapSeq(slice.users, UserId)) &&
                (!found ==> store.users == old(store.users) && slice.users == old(slice.users))
      ensures store.storedToken == old(store.storedToken) && store.storedUser == old(store.storedUser)
      ensures !Truthy(old(userToDelete)) ==>
                slice.currentUser == old(slice.currentUser) && slice.loading == old(slice.loading) &&
                slice.error == old(slice.error)
      ensures Truthy(old(userToDelete)) ==>
                var id := old(userToDelete).value;
                var i := IndexOf(MapSeq(old(store.users), UserId), id);
                !slice.loading &&
                (i == -1 ==> slice.error == Some("User not found") && slice.currentUser == old(slice.currentUser)) &&
                (i != -1 ==>
                   store.users == RemoveAt(old(store.users), i) &&
                   slice.users == Filter(old(slice.users), KeyDiffers(UserId, id)) && slice.error == None &&
                   slice.currentUser == if old(slice.currentUser).Some? && old(slice.currentUser).value.id == id
                                        then None else old(slice.currentUser))
    {
      if Truthy(userToDelete) {
        var id := userToDelete.value;
        var ids := MapSeq(store.users, UserId);
        var i := IndexOf(ids, id);
        FilterRemovesKey(slice.users, UserId, id);
        var s := slice.DeleteUser(store, id);
        if s.Fulfilled? {
          if currentUser.Some? && currentUser.value.id in ids {
            MapSeqRemove(old(store.users), UserId, i);
            RemoveAtKeepsOthers(ids, i, currentUser.value.id);
          }
          toast := Toast(true, UserDeletedMessage, SuccessToast);
        } else {
          toast := Toast(true, UserDeleteFailedMessage, ErrorToast);
        }
        deleteModalOpen := false;
        userToDelete := None;
      }
    }
  }
}

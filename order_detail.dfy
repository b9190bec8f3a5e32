/**
 * The order detail page: it loads the order of its route, mirrors the order's
 * status in a selector, and lets administrators and editors change the status
 * through the order request state.
 */
module OrderDetail {
  import opened Wrappers
  import opened Types
  import opened Text
  import opened Seqs
  import opened MockApi
  import opened Thunks
  import opened PageKit
  import opened OrderSlice

  const StatusUpdatedMessage := "Order status updated successfully"
  const StatusUpdateFailedMessage := "Failed to update order status"

  /** The guard of `handleStatusChange`: an id, a chosen status, and one that differs from the order's. */
  predicate WillDispatch(id: Option<string>, selected: Option<OrderStatus>, current: Option<Order>) {
    Truthy(id) && selected.Some? && !(current.Some? && selected.value == current.value.status)
  }

  /** The update button's `disabled`. */
  predicate ButtonDisabled(updating: bool, selected: Option<OrderStatus>, current: Order) {
    updating || selected == Some(current.status)
  }

  /**
   * On a loaded order, pressing an enabled button with a status chosen
   * dispatches; a dispatch never re-sends the order's own status; and right
   * after the selector is synchronised with the order the button is disabled.
   */
  lemma ButtonMatchesGuard(id: Option<string>, selected: Option<OrderStatus>, current: Order, updating: bool)
    ensures Truthy(id) && selected.Some? && !ButtonDisabled(updating, selected, current) ==>
              WillDispatch(id, selected, Some(current))
    ensures WillDispatch(id, selected, Some(current)) ==> selected.value != current.status
    ensures ButtonDisabled(updating, Some(current.status), current)
    ensures !WillDispatch(id, Some(current.status), Some(current))
  {
  }

  class OrderDetailPage {
    const id: Option<string>
    const user: Option<AuthUser>
    var selectedStatus: Option<OrderStatus>
    var updating: bool
    var toast: Toast

    constructor (id: Option<string>, user: Option<AuthUser>)
      ensures this.id == id && this.user == user
      ensures selectedStatus == None && !updating && toast == ClosedToast
    {
      this.id := id;
      this.user := user;
      selectedStatus := None;
      updating := false;
      toast := ClosedToast;
    }

    /** The status card is shown to administrators and editors. */
    predicate ShowsStatusControl() {
      IsEditor(user)
    }

    /** The mount effect: with an id, the order is fetched into the request state. */
    method Mount(slice: OrderState, store: Store)
      modifies slice
      ensures !Truthy(id) ==> slice.currentOrder == old(slice.currentOrder) && slice.error == old(slice.error)
      ensures Truthy(id) && id.value in MapSeq(store.orders, OrderId) ==>
                slice.currentOrder == Some(store.orders[IndexOf(MapSeq(store.orders, OrderId), id.value)])
      ensures Truthy(id) && id.value !in MapSeq(store.orders, OrderId) ==> slice.error == Some("Order not found")
      ensures slice.orders == old(slice.orders)
    {
      if Truthy(id) {
        var _ := slice.FetchOrderById(store, id.value);
      }
    }

    /** The sync effect: a loaded order's status becomes the selection. */
    method OnCurrentOrder(current: Option<Order>)
      modifies this
      ensures selectedStatus == if current.Some? then Some(current.value.status) else old(selectedStatus)
      ensures updating == old(updating) && toast == old(toast)
    {
      if current.Some? {
        selectedStatus := Some(current.value.status);
      }
    }

    /** The status selector's change handler: the chosen status is recorded and nothing is sent. */
    method SelectStatus(status: OrderStatus)
      modifies this
      ensures selectedStatus == Some(status)
      ensures updating == old(updating) && toast == old(toast)
    {
      selectedStatus := Some(status);
    }

    /** The error effect: a slice error opens an error notification with its text. */
    method OnSliceError(error: Option<string>)
      modifies this
      ensures toast == if Truthy(error) then Toast(true, error.value, ErrorToast) else old(toast)
      ensures selectedStatus == old(selectedStatus) && updating == old(updating)
    {
      if Truthy(error) {
        toast := Toast(true, error.value, ErrorToast);
      }
    }

    /**
     * `handleStatusChange`: when the guard passes, the chosen status is sent
     * through the request state; success is reported exactly when the backend
     * has the order, which then carries the new status in the backend and as
     * the current order. Otherwise nothing happens.
     */
    method HandleStatusChange(slice: OrderState, store: Store, now: string) returns (dispatched: bool)
      modifies this, slice, store
      ensures dispatched <==> WillDispatch(id, old(selectedStatus), old(slice.currentOrder))
      ensures selectedStatus == old(selectedStatus) && !updating == (dispatched || !old(updating))
      ensures store.users == old(store.users) && store.products == old(store.products)
      ensures !dispatched ==> toast == old(toast) && store.orders == old(store.orders) &&
                              slice.currentOrder == old(slice.currentOrder)
      ensures dispatched ==>
                var i := IndexOf(MapSeq(old(store.orders), OrderId), id.value);
                !updating &&
                (i == -1 ==> toast == Toast(true, "Order not found", ErrorToast) && store.orders == old(store.orders)) &&
                (i != -1 ==> toast == Toast(true, StatusUpdatedMessage, SuccessToast) &&
                             |store.orders| == |old(store.orders)| && store.orders[i].status == selectedStatus.value &&
                             slice.currentOrder.Some? && slice.currentOrder.value.status == selectedStatus.value &&
                             slice.currentOrder.value.id == id.value)
      ensures store.storedToken == old(store.storedToken) && store.storedUser == old(store.storedUser)
      ensures !dispatched ==>
                slice.orders == old(slice.orders) && slice.loading == old(slice.loading) && slice.error == old(slice.error)
      ensures dispatched ==>
                var i := IndexOf(MapSeq(old(store.orders), OrderId), id.value);
                !slice.loading &&
                (i == -1 ==>
                   slice.error == Some("Order not found") && slice.orders == old(slice.orders) &&
                   slice.currentOrder == old(slice.currentOrder)) &&
                (i != -1 ==>
                   var o := WithStatus(old(store.orders)[i], selectedStatus.value, now);
                   store.orders == old(store.orders)[i := o] &&
                   slice.orders == ReplaceFirst(old(slice.orders), OrderId, o) &&
                   slice.currentOrder == Some(o) && slice.error == None)
    {
      if !WillDispatch(id, selectedStatus, slice.currentOrder) {
        return false;
      }
      dispatched := true;
      updating := true;
      ghost var i := IndexOf(MapSeq(store.orders, OrderId), id.value);
      var s := slice.UpdateOrderStatus(store, id.value, OrderStatusUpdate(selectedStatus.value), now);
      match s {
        case Fulfilled(_) =>
          toast := Toast(true, StatusUpdatedMessage, SuccessToast);
        case Rejected(payload) =>
          toast := Toast(true, CaughtText(CaughtString(payload), StatusUpdateFailedMessage), ErrorToast);
      }
      if i != -1 {
        assert MapSeq(old(store.orders), OrderId)[i] == id.value;
      }
      updating := false;
    }

    /** The page shows only a loader while loading or before an order is loaded. */
    predicate ShowsLoader(loading: bool, current: Option<Order>) {
      loading || current.None?
    }
  }
}

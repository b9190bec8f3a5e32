/**
 * The order request state: the order table mirror, the order being viewed, a
 * loading flag and the last error. No case adds or removes a single order; only
 * a full fetch replaces the list.
 */
module OrderSlice {
  import opened Wrappers
  import opened Types
  import opened Seqs
  import opened MockApi
  import opened Thunks

  const FetchOrdersFallback := "Failed to fetch orders"
  const FetchOrderFallback := "Failed to fetch order"
  const UpdateOrderStatusFallback := "Failed to update order status"

  class OrderState {
    var orders: seq<Order>
    var currentOrder: Option<Order>
    var loading: bool
    var error: Option<string>

    constructor ()
      ensures orders == [] && currentOrder == None && !loading && error == None
    {
      orders := [];
      currentOrder := None;
      loading := false;
      error := None;
    }

    /** Every pending case: loading, error cleared, data untouched. */
    method OnPending()
      modifies this
      ensures loading && error == None
      ensures orders == old(orders) && currentOrder == old(currentOrder)
    {
      loading := true;
      error := None;
    }

    /** Every rejected case: the payload becomes the error, data untouched. */
    method OnRejected(payload: string)
      modifies this
      ensures !loading && error == Some(payload)
      ensures orders == old(orders) && currentOrder == old(currentOrder)
    {
      loading := false;
      error := Some(payload);
    }

    /** `fetchOrders.fulfilled`: the whole list is replaced. */
    method OnFetchFulfilled(payload: seq<Order>)
      modifies this
      ensures !loading && orders == payload
      ensures currentOrder == old(currentOrder) && error == old(error)
    {
      loading := false;
      orders := payload;
    }

    /** `fetchOrderById.fulfilled`: only the current order (and loading) change. */
    method OnFetchByIdFulfilled(payload: Order)
      modifies this
      ensures !loading && currentOrder == Some(payload)
      ensures orders == old(orders) && error == old(error)
    {
      loading := false;
      currentOrder := Some(payload);
    }

    /**
     * `updateOrderStatus.fulfilled`: the first order with the payload's id is
     * replaced in place, so the length and the id sequence stay; the payload
     * becomes current.
     */
    method OnUpdateStatusFulfilled(payload: Order)
      modifies this
      ensures !loading && orders == ReplaceFirst(old(orders), OrderId, payload)
      ensures |orders| == |old(orders)| && MapSeq(orders, OrderId) == MapSeq(old(orders), OrderId)
      ensures currentOrder == Some(payload) && error == old(error)
    {
      loading := false;
      var i := IndexOf(MapSeq(orders, OrderId), payload.id);
      if i != -1 {
        orders := orders[i := payload];
      }
      currentOrder := Some(payload);
    }

    method ClearCurrentOrder()
      modifies this
      ensures currentOrder == None
      ensures orders == old(orders) && loading == old(loading) && error == old(error)
    {
      currentOrder := None;
    }

    method ClearError()
      modifies this
      ensures error == None
      ensures orders == old(orders) && currentOrder == old(currentOrder) && loading == old(loading)
    {
      error := None;
    }

    /** `fetchOrders`: never fails; the mirror becomes the backend table. */
    method FetchOrders(store: Store) returns (s: Settlement<seq<Order>>)
      modifies this
      ensures s == Fulfilled(store.orders)
      ensures !loading && error == None && orders == store.orders && currentOrder == old(currentOrder)
    {
      OnPending();
      var r := store.GetOrders();
      s := SettlePassThrough(r, FetchOrdersFallback);
      OnFetchFulfilled(r.value.data);
    }

    /** `fetchOrderById`: the backend's order becomes current, or its error is recorded. */
    method FetchOrderById(store: Store, id: string) returns (s: Settlement<Order>)
      modifies this
      ensures !loading && orders == old(orders)
      ensures id !in MapSeq(store.orders, OrderId) ==>
                s == Rejected("Order not found") && error == Some("Order not found") &&
                currentOrder == old(currentOrder)
      ensures id in MapSeq(store.orders, OrderId) ==>
                var o := store.orders[IndexOf(MapSeq(store.orders, OrderId), id)];
                s == Fulfilled(o) && currentOrder == Some(o) && error == None
    {
      OnPending();
      var r := store.GetOrderById(id);
      s := SettlePassThrough(r, FetchOrderFallback);
      match s
      case Fulfilled(o) => OnFetchByIdFulfilled(o);
      case Rejected(m) => OnRejected(m);
    }

    /** `updateOrderStatus`: the re-stamped order replaces its backend entry and its mirror entry, and becomes current. */
    method UpdateOrderStatus(store: Store, id: string, update: OrderStatusUpdate, now: string)
      returns (s: Settlement<Order>)
      modifies this, store
      ensures store.users == old(store.users) && store.products == old(store.products)
      ensures store.storedToken == old(store.storedToken) && store.storedUser == old(store.storedUser)
      ensures !loading
      ensures var i := IndexOf(MapSeq(old(store.orders), OrderId), id);
              if i == -1 then
                s == Rejected("Order not found") && error == Some("Order not found") &&
                store.orders == old(store.orders) && orders == old(orders) && currentOrder == old(currentOrder)
              else
                var o := WithStatus(old(store.orders)[i], update.status, now);
                s == Fulfilled(o) && store.orders == old(store.orders)[i := o] &&
                orders == ReplaceFirst(old(orders), OrderId, o) && currentOrder == Some(o) && error == None
    {
      OnPending();
      var r := store.UpdateOrderStatus(id, update, now);
      s := SettlePassThrough(r, UpdateOrderStatusFallback);
      match s
      case Fulfilled(o) => OnUpdateStatusFulfilled(o);
      case Rejected(m) => OnRejected(m);
    }
  }
}

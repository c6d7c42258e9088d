/**
  The order history panel. It holds the user's orders as last fetched, the id
  of the order whose details are open, and a cache of fetched line items per
  order id.

  The order service's replies are inputs. Its convention is that a failed
  or empty select yields an empty list, and that a cancel reports only
  whether the update succeeded.
 */
module Orders {
  import opened Seqs
  import opened Types

  datatype Order = Order(
    id: string,
    totalAmount: int,
    status: string,
    trackingNumber: Option<string>,
    createdAt: string)

  datatype OrderItem = OrderItem(productId: string, quantity: int, price: int)

  /** `fetchOrders` / `fetchOrderItems`: the rows of a select, or none when it failed or returned null. */
  function RowsOrEmpty<T>(reply: Response<seq<T>>): (r: seq<T>)
    ensures reply.error.Some? || reply.data.None? ==> r == []
    ensures reply.error.None? && reply.data.Some? ==> r == reply.data.value
  {
    if reply.error.Some? then []
    else if reply.data.None? then []
    else reply.data.value
  }

  /** The status written by a cancel. */
  const CancelledStatus: string := "cancelled"

  /** The order row shows its cancel button only for this status. */
  predicate CanCancel(o: Order)
  {
    o.status == "booked"
  }

  /** The local rewrite after a successful cancel: every order with `orderId` gets status "cancelled". */
  function Cancelled(orders: seq<Order>, orderId: string): (r: seq<Order>)
    ensures |r| == |orders|
    decreases |orders|
  {
    if orders == [] then []
    else
      var o := orders[0];
      [if o.id == orderId then o.(status := CancelledStatus) else o] + Cancelled(orders[1..], orderId)
  }

  /**
    The rewrite touches only the status of the orders with that id: the list
    keeps its length and order, every other order is kept as it was, and no
    other field of a matching order changes.
   */
  lemma {:induction false} CancelledAt(orders: seq<Order>, orderId: string)
    ensures |Cancelled(orders, orderId)| == |orders|
    ensures forall i :: 0 <= i < |orders| && orders[i].id != orderId ==> Cancelled(orders, orderId)[i] == orders[i]
    ensures forall i :: 0 <= i < |orders| && orders[i].id == orderId ==>
      Cancelled(orders, orderId)[i] == orders[i].(status := CancelledStatus)
    decreases |orders|
  {
    if orders != [] {
      CancelledAt(orders[1..], orderId);
      var r := Cancelled(orders, orderId);
      forall i | 0 < i < |orders|
        ensures r[i] == Cancelled(orders[1..], orderId)[i - 1]
        ensures orders[i] == orders[1..][i - 1]
      {
      }
    }
  }

  /** Cancelling the same order twice leaves the list as cancelling it once. */
  lemma CancelledIdempotent(orders: seq<Order>, orderId: string)
    ensures Cancelled(Cancelled(orders, orderId), orderId) == Cancelled(orders, orderId)
  {
    var once := Cancelled(orders, orderId);
    CancelledAt(orders, orderId);
    CancelledAt(once, orderId);
    var twice := Cancelled(once, orderId);
    forall i | 0 <= i < |orders|
      ensures twice[i] == once[i]
    {
    }
  }

  /** Cancels of two orders can be applied in either order. */
  lemma CancelledCommute(orders: seq<Order>, a: string, b: string)
    ensures Cancelled(Cancelled(orders, a), b) == Cancelled(Cancelled(orders, b), a)
  {
    var ab := Cancelled(Cancelled(orders, a), b);
    var ba := Cancelled(Cancelled(orders, b), a);
    CancelledAt(orders, a);
    CancelledAt(orders, b);
    CancelledAt(Cancelled(orders, a), b);
    CancelledAt(Cancelled(orders, b), a);
    forall i | 0 <= i < |orders|
      ensures ab[i] == ba[i]
    {
    }
  }

  /** A cancel for an id that no loaded order has leaves the list as it was. */
  lemma CancelledAbsent(orders: seq<Order>, orderId: string)
    requires forall i :: 0 <= i < |orders| ==> orders[i].id != orderId
    ensures Cancelled(orders, orderId) == orders
  {
    CancelledAt(orders, orderId);
  }

  /** Once cancelled locally, no order with that id offers the cancel button again. */
  lemma CancelledNotCancellable(orders: seq<Order>, orderId: string)
    ensures forall o :: o in Cancelled(orders, orderId) && o.id == orderId ==> !CanCancel(o)
  {
    CancelledAt(orders, orderId);
    var r := Cancelled(orders, orderId);
    forall o | o in r && o.id == orderId
      ensures !CanCancel(o)
    {
      var i :| 0 <= i < |r| && r[i] == o;
      assert orders[i].id == orderId;
    }
  }

  /** The component's state. */
  class OrderHistory {
    var orders: seq<Order>
    var expandedOrder: Option<string>
    var orderItems: map<string, seq<OrderItem>>

    constructor ()
      ensures orders == [] && expandedOrder.None? && orderItems == map[]
    {
      orders := [];
      expandedOrder := None;
      orderItems := map[];
    }

    /**
      `loadOrders`, run when a user is present and on every realtime change:
      the list becomes exactly what the select returned, and a failed select
      empties it.
     */
    method LoadOrders(reply: Response<seq<Order>>)
      modifies this
      ensures orders == RowsOrEmpty(reply)
      ensures reply.error.Some? ==> orders == []
      ensures expandedOrder == old(expandedOrder) && orderItems == old(orderItems)
    {
      orders := RowsOrEmpty(reply);
    }

    /** `handleFetchOrderItems`: the cache entry for `orderId` is set; all other entries stay. */
    method HandleFetchOrderItems(orderId: string, reply: Response<seq<OrderItem>>)
      modifies this
      ensures orderItems == old(orderItems)[orderId := RowsOrEmpty(reply)]
      ensures forall k :: k in old(orderItems) && k != orderId ==> k in orderItems && orderItems[k] == old(orderItems)[k]
      ensures orders == old(orders) && expandedOrder == old(expandedOrder)
    {
      orderItems := orderItems[orderId := RowsOrEmpty(reply)];
    }

    /**
      `handleCancelOrder`, given the outcome of the status update: on success
      the order is marked cancelled locally; on failure nothing changes. There
      is no check of the order's current status.
     */
    method HandleCancelOrder(orderId: string, updateError: Option<string>) returns (toast: Toast)
      modifies this
      ensures updateError.None? ==> orders == Cancelled(old(orders), orderId) && !toast.destructive
      ensures updateError.Some? ==> orders == old(orders) && toast.destructive
      ensures expandedOrder == old(expandedOrder) && orderItems == old(orderItems)
    {
      if updateError.None? {
        orders := Cancelled(orders, orderId);
        toast := Toast("Order Cancelled", "Your order has been cancelled successfully.", false);
      } else {
        toast := Toast("Error", "There was a problem cancelling your order.", true);
      }
    }

    /**
      `toggleOrderDetails`: closing the open order, or opening another one and
      fetching its items (answered by `reply`) only when the cache has no entry
      for it. An entry holding an empty list counts as cached.
     */
    method ToggleOrderDetails(orderId: string, reply: Response<seq<OrderItem>>) returns (fetched: bool)
      modifies this
      ensures old(expandedOrder) == Some(orderId) ==> expandedOrder.None? && !fetched
      ensures old(expandedOrder) != Some(orderId) ==>
        expandedOrder == Some(orderId) && (fetched <==> orderId !in old(orderItems))
      ensures fetched ==> orderItems == old(orderItems)[orderId := RowsOrEmpty(reply)]
      ensures !fetched ==> orderItems == old(orderItems)
      ensures forall k :: k in old(orderItems) ==> k in orderItems && orderItems[k] == old(orderItems)[k]
      ensures orderId in orderItems || expandedOrder.None?
      ensures orders == old(orders)
    {
      fetched := false;
      if expandedOrder == Some(orderId) {
        expandedOrder := None;
      } else {
        expandedOrder := Some(orderId);
        if orderId !in orderItems {
          HandleFetchOrderItems(orderId, reply);
          fetched := true;
        }
      }
    }
  }
}

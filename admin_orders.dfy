/** The administrator's order page: the order-status flow behind its
    "Mark as …" button, and the page's `orders` / `isLoading` state as the
    fetch, status-change and delete handlers update it. */
module AdminOrders {
  import opened ShopTypes
  import Seqs

  const LoadFailed := "Failed to load orders"
  const StatusFailed := "Failed to update order status"
  const DeleteFailed := "Failed to delete order"

  /** The body of `PATCH /orders/{orderId}/status`. */
  datatype StatusPatch = StatusPatch(orderId: string, status: Status)

  /** How many forward steps remain before the flow ends. */
  function StepsLeft(s: Status): nat
  {
    match s
    case Ordered => 3
    case Preparing => 2
    case Ready => 1
    case Delivered => 0
    case Cancelled => 0
  }

  /** `getNextStatus`: ordered, preparing and ready move one step on; delivered and cancelled are
      terminal. The flow never leads into `cancelled`, and each step brings the end one step nearer. */
  function NextStatus(s: Status): (r: Option<Status>)
    ensures r.None? <==> s == Delivered || s == Cancelled
    ensures r != Some(Cancelled)
    ensures r.Some? ==> StepsLeft(r.value) + 1 == StepsLeft(s)
  {
    match s
    case Ordered => Some(Preparing)
    case Preparing => Some(Ready)
    case Ready => Some(Delivered)
    case Delivered => None
    case Cancelled => None
  }

  /** `n` presses of "Mark as …" in a row, starting from `s` (None once no button is offered). */
  function Advance(s: Status, n: nat): (r: Option<Status>)
    ensures n > 0 && r.Some? ==> r.value != Cancelled
    decreases n
  {
    if n == 0 then Some(s)
    else match NextStatus(s)
      case None => None
      case Some(t) => Advance(t, n - 1)
  }

  /** Following the flow for `n` steps lands exactly `n` steps nearer the end. */
  lemma {:induction false} AdvanceSteps(s: Status, n: nat)
    ensures Advance(s, n).Some? <==> n <= StepsLeft(s)
    ensures Advance(s, n).Some? ==> StepsLeft(Advance(s, n).value) + n == StepsLeft(s)
    decreases n
  {
    if n > 0 {
      match NextStatus(s)
      case None =>
      case Some(t) => AdvanceSteps(t, n - 1);
    }
  }

  /** The flow has no cycle: no status comes back after one or more steps. */
  lemma NoCycle(s: Status, n: nat)
    requires n >= 1
    ensures Advance(s, n) != Some(s)
  {
    AdvanceSteps(s, n);
  }

  /** From any status the flow ends after at most three steps. */
  lemma FlowEnds(s: Status)
    ensures Advance(s, 4) == None
    ensures Advance(s, StepsLeft(s)).Some? && NextStatus(Advance(s, StepsLeft(s)).value).None?
  {
    AdvanceSteps(s, 4);
    AdvanceSteps(s, StepsLeft(s));
  }

  /** The "Mark as …" button of an order card: shown only when the flow has a next status, and then
      it asks for that status, which differs from the current one and is never `cancelled`. */
  function MarkAsRequest(o: Order): (r: Option<StatusPatch>)
    ensures r.Some? <==> o.status != Delivered && o.status != Cancelled
    ensures r.Some? ==>
      && r.value.orderId == o.id
      && r.value.status != o.status
      && r.value.status != Cancelled
      && StepsLeft(r.value.status) + 1 == StepsLeft(o.status)
  {
    match NextStatus(o.status)
    case Some(next) => Some(StatusPatch(o.id, next))
    case None => None
  }

  /** The choices of the status drop-down, which sends whichever one is picked. */
  const StatusOptions: seq<Status> := [Ordered, Preparing, Ready, Delivered, Cancelled]

  /** The drop-down offers every status, so `SelectStatus` can send any of them: the page itself
      restricts no transition. */
  lemma EveryStatusOffered(s: Status)
    ensures s in StatusOptions
  {
  }

  function OrderId(o: Order): string { o.id }

  /** `prev.filter(order => order._id !== orderId)`. */
  function WithoutOrder(orders: seq<Order>, orderId: string): (r: seq<Order>)
    ensures |r| <= |orders|
    ensures forall i :: 0 <= i < |r| ==> r[i].id != orderId
  {
    Seqs.RemoveKeyMembers(orders, OrderId, orderId);
    var r := Seqs.RemoveKey(orders, OrderId, orderId);
    assert forall i :: 0 <= i < |r| ==> r[i] in r;
    r
  }

  /** Position `k` holds the one order with id `orderId`. */
  predicate OnlyAt(orders: seq<Order>, orderId: string, k: int)
  {
    && 0 <= k < |orders|
    && orders[k].id == orderId
    && forall i :: 0 <= i < |orders| && i != k ==> orders[i].id != orderId
  }

  /** Deleting an order keeps exactly the orders with other ids, and keeps them in order. */
  lemma {:induction false} WithoutOrderEffect(orders: seq<Order>, orderId: string)
    ensures forall o :: o in WithoutOrder(orders, orderId) <==> o in orders && o.id != orderId
    ensures (forall i :: 0 <= i < |orders| ==> orders[i].id != orderId) ==>
      WithoutOrder(orders, orderId) == orders
    ensures forall k :: OnlyAt(orders, orderId, k) ==>
      WithoutOrder(orders, orderId) == orders[..k] + orders[k + 1..]
  {
    Seqs.RemoveKeyMembers(orders, OrderId, orderId);
    forall k | OnlyAt(orders, orderId, k)
      ensures WithoutOrder(orders, orderId) == orders[..k] + orders[k + 1..]
    {
      Seqs.RemoveKeyAt(orders, OrderId, orderId, k);
    }
  }

  /** `AdminOrders`' state. */
  class AdminOrdersPage {
    var orders: seq<Order>
    var isLoading: bool

    /** `useState<Order[]>([])` and `useState(true)`: the page starts out loading. */
    constructor ()
      ensures orders == [] && isLoading
    {
      orders, isLoading := [], true;
    }

    /** `fetchOrders`: a reply replaces the list, a failure keeps it and alerts; either way the
        page stops loading. */
    method FetchOrders(reply: Reply<seq<Order>>) returns (alert: Option<Alert>)
      modifies this
      ensures !isLoading
      ensures reply.Ok? ==> orders == reply.data && alert == None
      ensures reply.Err? ==> orders == old(orders) && alert == Some(Message(LoadFailed))
    {
      match reply {
        case Ok(data) =>
          orders := data;
          alert := None;
        case Err(_) =>
          alert := Some(Message(LoadFailed));
      }
      isLoading := false;
    }

    /** `updateOrderStatus(orderId, status)`: sends any status it is given; on success the page
        refetches (`refetch` is that second reply), on failure nothing changes but an alert. */
    method UpdateOrderStatus(orderId: string, status: Status, reply: Reply<Order>, refetch: Reply<seq<Order>>)
      returns (sent: StatusPatch, alert: Option<Alert>)
      modifies this
      ensures sent == StatusPatch(orderId, status)
      ensures reply.Ok? ==> !isLoading
      ensures reply.Ok? && refetch.Ok? ==> orders == refetch.data && alert == None
      ensures reply.Ok? && refetch.Err? ==> orders == old(orders) && alert == Some(Message(LoadFailed))
      ensures reply.Err? ==>
        orders == old(orders) && isLoading == old(isLoading) && alert == Some(Message(StatusFailed))
    {
      sent := StatusPatch(orderId, status);
      match reply
      case Ok(_) =>
        alert := FetchOrders(refetch);
      case Err(_) =>
        alert := Some(Message(StatusFailed));
    }

    /** Picking `choice` in the status drop-down of an order card: whatever is picked is sent,
        with no check against the flow. */
    method SelectStatus(orderId: string, choice: Status, reply: Reply<Order>, refetch: Reply<seq<Order>>)
      returns (sent: StatusPatch, alert: Option<Alert>)
      requires choice in StatusOptions
      modifies this
      ensures sent == StatusPatch(orderId, choice)
      ensures reply.Ok? && refetch.Ok? ==> orders == refetch.data && !isLoading
      ensures reply.Err? ==> orders == old(orders) && alert == Some(Message(StatusFailed))
    {
      sent, alert := UpdateOrderStatus(orderId, choice, reply, refetch);
    }

    /** The "Mark as …" button on the `i`-th order card, which is only rendered when the order has
        a next status: it requests exactly that status. */
    method MarkAs(i: int, reply: Reply<Order>, refetch: Reply<seq<Order>>)
      returns (sent: StatusPatch, alert: Option<Alert>)
      requires 0 <= i < |orders| && MarkAsRequest(orders[i]).Some?
      modifies this
      ensures Some(sent) == old(MarkAsRequest(orders[i]))
      ensures reply.Ok? && refetch.Ok? ==> orders == refetch.data
      ensures reply.Err? ==> orders == old(orders)
    {
      var o := orders[i];
      sent, alert := UpdateOrderStatus(o.id, NextStatus(o.status).value, reply, refetch);
    }

    /** `handleDeleteOrder(orderId)`: nothing happens unless the user confirms; then a success drops
        the order's id from the list and a failure keeps the list and alerts. Returns whether the
        DELETE request was sent. */
    method HandleDeleteOrder(orderId: string, confirmed: bool, reply: Reply<()>)
      returns (sent: bool, alert: Option<Alert>)
      modifies this
      ensures sent == confirmed
      ensures isLoading == old(isLoading)
      ensures !confirmed ==> orders == old(orders) && alert == None
      ensures confirmed && reply.Ok? ==> orders == WithoutOrder(old(orders), orderId) && alert == None
      ensures confirmed && reply.Err? ==> orders == old(orders) && alert == Some(Message(DeleteFailed))
    {
      sent, alert := false, None;
      if !confirmed {
        return;
      }
      sent := true;
      match reply
      case Ok(_) =>
        orders := WithoutOrder(orders, orderId);
      case Err(_) =>
        alert := Some(Message(DeleteFailed));
    }
  }
}

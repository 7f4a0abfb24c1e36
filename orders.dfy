/**
 * The customer portal's orders: the status labels sent by the back end,
 * the split of a customer's orders into active and completed ones, the
 * tracking steps of one order and the cancel and reorder permissions.
 * Orders are objects: cancelling one changes its status where every list
 * holding it sees the change.
 */
module Orders {
  import opened Text
  import opened Collections

  datatype OrderStatus = Pending | Confirmed | Preparing | OnWay | Delivered | Cancelled

  /** The label the back end uses for each status. */
  function BackendLabel(status: OrderStatus): string
  {
    match status
    case Pending => "Pendiente"
    case Confirmed => "Confirmado"
    case Preparing => "Preparando"
    case OnWay => "En camino"
    case Delivered => "Completado"
    case Cancelled => "Cancelado"
  }

  /** `mapBackendStatus`: the six labels of the back end, and any other label read as pending. */
  function MapBackendStatus(backendStatus: string): (r: OrderStatus)
    ensures (forall s :: BackendLabel(s) != backendStatus) ==> r == Pending
    ensures r != Pending ==> BackendLabel(r) == backendStatus
  {
    if backendStatus == "Confirmado" then Confirmed
    else if backendStatus == "Preparando" then Preparing
    else if backendStatus == "En camino" then OnWay
    else if backendStatus == "Completado" then Delivered
    else if backendStatus == "Cancelado" then Cancelled
    else Pending
  }

  /** Every status survives the trip through its back-end label. */
  lemma StatusRoundTrip(status: OrderStatus)
    ensures MapBackendStatus(BackendLabel(status)) == status
  {
    match status
    case Pending =>
      assert BackendLabel(status) == "Pendiente";
    case Confirmed =>
    case Preparing =>
    case OnWay =>
    case Delivered =>
    case Cancelled =>
  }

  /** The statuses listed on the active tab; every other one is on the completed tab. */
  const ActiveStatuses: set<OrderStatus> := {Pending, Confirmed, Preparing, OnWay}
  const CompletedStatuses: set<OrderStatus> := {Delivered, Cancelled}

  /** The statuses in which an order may still be cancelled. */
  predicate Cancellable(status: OrderStatus)
  {
    status == Pending || status == Confirmed
  }

  /** The two tabs split the statuses, and an order that may be cancelled sits on the active one. */
  lemma TabsSplitStatuses(status: OrderStatus)
    ensures status in ActiveStatuses <==> status !in CompletedStatuses
    ensures Cancellable(status) ==> status in ActiveStatuses
    ensures !Cancellable(Cancelled) && Cancelled in CompletedStatuses
  {
  }

  /** An order returned by the back end. */
  datatype BackendOrder = BackendOrder(orderCode: string, idSale: nat, status: string, total: int, paymentMethod: string)

  /** The fee shown for every order, in cents. */
  const OrderDeliveryFee: int := 500

  class Order {
    var orderNumber: string
    var customerId: string
    var status: OrderStatus
    var total: int
    var subtotal: int
    var deliveryFee: int
    var discount: int
    var paymentMethod: string

    /** The order as `mapOrdersFromBackend` builds it: the total doubles as the subtotal, a fixed fee, no discount. */
    predicate MappedFrom(b: BackendOrder)
      reads this
    {
      orderNumber == b.orderCode && customerId == NatToString(b.idSale)
      && status == MapBackendStatus(b.status) && total == b.total && subtotal == b.total
      && deliveryFee == OrderDeliveryFee && discount == 0 && paymentMethod == b.paymentMethod
    }

    constructor FromBackend(b: BackendOrder)
      ensures MappedFrom(b)
    {
      orderNumber := b.orderCode;
      customerId := NatToString(b.idSale);
      status := MapBackendStatus(b.status);
      total, subtotal := b.total, b.total;
      deliveryFee, discount := OrderDeliveryFee, 0;
      paymentMethod := b.paymentMethod;
    }
  }

  /** `filter` on the order status: the orders whose status is in `statuses`, in their order. */
  function OrdersIn(orders: seq<Order>, statuses: set<OrderStatus>): (r: seq<Order>)
    reads orders
    ensures |r| <= |orders|
    ensures forall i :: 0 <= i < |r| ==> r[i].status in statuses
    decreases |orders|
  {
    if orders == [] then []
    else (if orders[0].status in statuses then [orders[0]] else []) + OrdersIn(orders[1..], statuses)
  }

  lemma {:induction false} OrdersInMembership(orders: seq<Order>, statuses: set<OrderStatus>, o: Order)
    ensures o in OrdersIn(orders, statuses) <==> o in orders && o.status in statuses
    decreases |orders|
  {
    if orders != [] {
      OrdersInMembership(orders[1..], statuses, o);
      assert o in orders <==> o == orders[0] || o in orders[1..];
    }
  }

  lemma {:induction false} OrdersInSubsequence(orders: seq<Order>, statuses: set<OrderStatus>)
    ensures Subsequence(OrdersIn(orders, statuses), orders)
    decreases |orders|
  {
    if orders != [] {
      OrdersInSubsequence(orders[1..], statuses);
      if orders[0].status in statuses {
        assert OrdersIn(orders, statuses) == [orders[0]] + OrdersIn(orders[1..], statuses);
        assert OrdersIn(orders, statuses)[1..] == OrdersIn(orders[1..], statuses);
      } else {
        assert OrdersIn(orders, statuses) == OrdersIn(orders[1..], statuses);
      }
    }
  }

  /** The orders of a status set are the first order when its status is in the set, then those of the rest. */
  lemma OrdersInFirst(orders: seq<Order>, statuses: set<OrderStatus>)
    requires orders != []
    ensures multiset(OrdersIn(orders, statuses)) ==
      (if orders[0].status in statuses then multiset{orders[0]} else multiset{}) + multiset(OrdersIn(orders[1..], statuses))
  {
  }

  /** Two complementary sets of statuses deal out every order exactly once. */
  lemma {:induction false} OrdersInSplit(orders: seq<Order>, first: set<OrderStatus>, second: set<OrderStatus>)
    requires first !! second
    requires forall s :: s !in first ==> s in second
    ensures multiset(OrdersIn(orders, first)) + multiset(OrdersIn(orders, second)) == multiset(orders)
    decreases |orders|
  {
    if orders != [] {
      var x, rest := orders[0], orders[1..];
      OrdersInSplit(rest, first, second);
      OrdersInFirst(orders, first);
      OrdersInFirst(orders, second);
      assert orders == [x] + rest;
      assert multiset(orders) == multiset{x} + multiset(rest);
      var status := x.status;
      assert status !in first ==> status in second;
    }
  }

  /** The orders page of the customer portal. */
  class CustomerOrders {
    var allOrders: seq<Order>
    var activeOrders: seq<Order>
    var completedOrders: seq<Order>

    constructor ()
      ensures allOrders == [] && activeOrders == [] && completedOrders == []
    {
      allOrders, activeOrders, completedOrders := [], [], [];
    }

    /** The two tabs hold exactly the orders of the list, each once, on the tab its status selects, in list order. */
    ghost predicate Tabbed()
      reads this, allOrders, activeOrders, completedOrders
    {
      (forall i :: 0 <= i < |activeOrders| ==> activeOrders[i].status in ActiveStatuses)
      && (forall i :: 0 <= i < |completedOrders| ==> completedOrders[i].status in CompletedStatuses)
      && multiset(activeOrders) + multiset(completedOrders) == multiset(allOrders)
      && Subsequence(activeOrders, allOrders) && Subsequence(completedOrders, allOrders)
    }

    /** `mapOrdersFromBackend`: one new order per back-end order, in the same order. */
    method MapOrdersFromBackend(backend: seq<BackendOrder>) returns (orders: seq<Order>)
      ensures |orders| == |backend|
      ensures forall i :: 0 <= i < |backend| ==> fresh(orders[i]) && orders[i].MappedFrom(backend[i])
      ensures forall i, j :: 0 <= i < j < |orders| ==> orders[i] != orders[j]
    {
      orders := [];
      var i := 0;
      while i < |backend|
        invariant 0 <= i <= |backend| && |orders| == i
        invariant forall k :: 0 <= k < i ==> fresh(orders[k]) && orders[k].MappedFrom(backend[k])
        invariant forall k, l :: 0 <= k < l < i ==> orders[k] != orders[l]
      {
        var o := new Order.FromBackend(backend[i]);
        orders := orders + [o];
        i := i + 1;
      }
    }

    /** `filterOrders`: the active and the completed tab recomputed from the list. */
    method FilterOrders()
      modifies this`activeOrders, this`completedOrders
      ensures activeOrders == OrdersIn(allOrders, ActiveStatuses)
      ensures completedOrders == OrdersIn(allOrders, CompletedStatuses)
      ensures forall o :: o in activeOrders <==> o in allOrders && o.status in ActiveStatuses
      ensures forall o :: o in completedOrders <==> o in allOrders && o.status in CompletedStatuses
      ensures Tabbed()
    {
      var orders := allOrders;
      TabsOf(orders);
      activeOrders, completedOrders := OrdersIn(orders, ActiveStatuses), OrdersIn(orders, CompletedStatuses);
    }

    /** What the two filters of `filterOrders` produce from a list of orders. */
    static lemma TabsOf(orders: seq<Order>)
      ensures var active, completed := OrdersIn(orders, ActiveStatuses), OrdersIn(orders, CompletedStatuses);
        (forall o :: o in active <==> o in orders && o.status in ActiveStatuses)
        && (forall o :: o in completed <==> o in orders && o.status in CompletedStatuses)
        && multiset(active) + multiset(completed) == multiset(orders)
        && Subsequence(active, orders) && Subsequence(completed, orders)
    {
      forall o: Order
        ensures o in OrdersIn(orders, ActiveStatuses) <==> o in orders && o.status in ActiveStatuses
        ensures o in OrdersIn(orders, CompletedStatuses) <==> o in orders && o.status in CompletedStatuses
      {
        OrdersInMembership(orders, ActiveStatuses, o);
        OrdersInMembership(orders, CompletedStatuses, o);
      }
      forall s ensures s !in ActiveStatuses ==> s in CompletedStatuses {
        TabsSplitStatuses(s);
      }
      OrdersInSplit(orders, ActiveStatuses, CompletedStatuses);
      OrdersInSubsequence(orders, ActiveStatuses);
      OrdersInSubsequence(orders, CompletedStatuses);
    }

    /** The orders arrived from the back end: they replace the list and the tabs are recomputed. */
    method OnOrdersLoaded(backend: seq<BackendOrder>)
      modifies this
      ensures |allOrders| == |backend|
      ensures forall i :: 0 <= i < |backend| ==> fresh(allOrders[i]) && allOrders[i].MappedFrom(backend[i])
      ensures Tabbed()
    {
      allOrders := MapOrdersFromBackend(backend);
      FilterOrders();
    }

    /** `canCancelOrder`. */
    function CanCancelOrder(order: Order): (r: bool)
      reads order
      ensures r ==> order.status in ActiveStatuses
    {
      Cancellable(order.status)
    }

    /** `cancelOrder`: the order becomes cancelled with no check of its status, and moves to the completed tab. */
    method CancelOrder(order: Order)
      modifies order`status, this`activeOrders, this`completedOrders
      ensures order.status == Cancelled
      ensures Tabbed()
      ensures order in allOrders ==> order in completedOrders && order !in activeOrders
      ensures forall o :: o in allOrders && o != order ==> o.status == old(o.status)
    {
      order.status := Cancelled;
      FilterOrders();
    }
  }

  /** The tracking steps, in the order they are shown. */
  const TrackingSteps: seq<OrderStatus> := [Confirmed, Preparing, OnWay, Delivered]

  /** `findIndex`: the first position holding `status`, or -1. */
  function FindIndex(steps: seq<OrderStatus>, status: OrderStatus): (r: int)
    ensures -1 <= r < |steps|
    ensures r >= 0 ==> steps[r] == status && status !in steps[..r]
    ensures r == -1 <==> status !in steps
    decreases |steps|
  {
    if steps == [] then -1
    else if steps[0] == status then 0
    else
      var k := FindIndex(steps[1..], status);
      if k == -1 then -1 else k + 1
  }

  /** `getStepIndex`: the tracking step of a status; pending and cancelled orders are on no step. */
  function GetStepIndex(status: OrderStatus): (r: int)
    ensures -1 <= r < |TrackingSteps|
    ensures r >= 0 ==> TrackingSteps[r] == status
    ensures r == -1 <==> status !in TrackingSteps
  {
    FindIndex(TrackingSteps, status)
  }

  /** Each tracking step is found at its own position, the steps being distinct. */
  lemma StepIndexAt(k: int)
    requires 0 <= k < |TrackingSteps|
    ensures GetStepIndex(TrackingSteps[k]) == k
  {
  }

  lemma StepIndices()
    ensures GetStepIndex(Confirmed) == 0 && GetStepIndex(Preparing) == 1
    ensures GetStepIndex(OnWay) == 2 && GetStepIndex(Delivered) == 3
    ensures GetStepIndex(Pending) == -1 && GetStepIndex(Cancelled) == -1
  {
    StepIndexAt(0);
    StepIndexAt(1);
    StepIndexAt(2);
    StepIndexAt(3);
  }

  /** The detail page of one order. */
  class OrderDetail {
    var order: Order?

    constructor (order: Order?)
      ensures this.order == order
    {
      this.order := order;
    }

    /** `getCurrentStepIndex`: the step of the order's status, and 0 while there is no order. */
    function GetCurrentStepIndex(): (r: int)
      reads this, order
      ensures order == null ==> r == 0
      ensures r < |TrackingSteps|
      ensures order != null ==> (r >= 0 <==> order.status in TrackingSteps)
      ensures order != null && r >= 0 ==> TrackingSteps[r] == order.status
    {
      if order == null then 0 else GetStepIndex(order.status)
    }

    /** `isStepCompleted`: a step is completed when it is not past the current one. */
    predicate IsStepCompleted(stepIndex: int)
      reads this, order
    {
      stepIndex <= GetCurrentStepIndex()
    }

    /** `canCancelOrder`. */
    predicate CanCancelOrder()
      reads this, order
    {
      order != null && Cancellable(order.status)
    }

    /** `canReorder`. */
    predicate CanReorder()
      reads this, order
    {
      order != null && order.status == Delivered
    }

    /**
     * `cancelOrder`: nothing happens unless the order may be cancelled and
     * the customer confirms the dialog; then the order becomes cancelled.
     */
    method CancelOrder(confirmed: bool)
      modifies (if order == null then {} else {order})`status
      ensures order == old(order)
      ensures old(CanCancelOrder()) && confirmed ==> order.status == Cancelled
      ensures !(old(CanCancelOrder()) && confirmed) ==> order == null || order.status == old(order.status)
    {
      if order == null || !CanCancelOrder() {
        return;
      }
      if confirmed {
        order.status := Cancelled;
      }
    }
  }

  /** The completed steps are exactly the steps up to the current one; an order off the track completes none. */
  lemma {:induction false} CompletedSteps(detail: OrderDetail, i: int)
    requires detail.order != null && 0 <= i < |TrackingSteps|
    ensures detail.IsStepCompleted(i) <==>
      detail.order.status in TrackingSteps[i..]
  {
    var status := detail.order.status;
    var k := FindIndex(TrackingSteps, status);
    StepIndices();
    if status in TrackingSteps[i..] {
      var j :| i <= j < |TrackingSteps| && TrackingSteps[j] == status;
      assert k == j by {
        assert TrackingSteps[k] == status;
      }
    } else if k >= 0 {
      assert TrackingSteps[k] == status;
      assert k < i;
    }
  }

  /** A cancelled order is on no tracking step, may not be cancelled again and may not be reordered. */
  lemma CancelledOrderIsClosed(detail: OrderDetail)
    requires detail.order != null && detail.order.status == Cancelled
    ensures detail.GetCurrentStepIndex() == -1
    ensures forall i :: 0 <= i ==> !detail.IsStepCompleted(i)
    ensures !detail.CanCancelOrder() && !detail.CanReorder()
  {
    StepIndices();
  }

  /** Only a delivered order may be reordered, and it has completed every step. */
  lemma ReorderAfterDelivery(detail: OrderDetail)
    requires detail.CanReorder()
    ensures forall i :: 0 <= i < |TrackingSteps| ==> detail.IsStepCompleted(i)
    ensures !detail.CanCancelOrder()
  {
    StepIndices();
  }
}

/** The application's order slice: its state, its synchronous reducers and the
    request-lifecycle cases of its asynchronous thunks. The thunks' network calls
    are left out; their results arrive as action payloads. */
module OrderSlice {
  import opened Common
  import opened Orders

  datatype OrderState = OrderState(
    orders: seq<Order>,
    currentOrder: Option<Order>,
    isLoading: bool,
    error: Option<string>,
    orderStatuses: seq<OrderStatus>)

  function InitialState(): (r: OrderState)
    ensures r.orders == [] && r.currentOrder.None? && !r.isLoading && r.error.None?
    ensures r.orderStatuses == OrderStatuses
  {
    OrderState([], None, false, None, OrderStatuses)
  }

  datatype Action =
    | ClearError
    | ClearCurrentOrder
    | UpdateInList(order: Order)
    | CreatePending | CreateFulfilled(order: Order) | CreateRejected(err: Option<string>)
    | FetchPending | FetchFulfilled(orders: seq<Order>) | FetchRejected(err: Option<string>)
    | FetchByIdPending | FetchByIdFulfilled(order: Order) | FetchByIdRejected(err: Option<string>)
    | StatusUpdated(order: Order)
    | CancelFulfilled(order: Order)

  /** The shared `pending` case: loading, error cleared, nothing else touched. */
  function Started(s: OrderState): (r: OrderState)
    ensures r.isLoading && r.error.None?
    ensures r.(isLoading := s.isLoading, error := s.error) == s
  {
    s.(isLoading := true, error := None)
  }

  /** The shared `rejected` case: not loading, the payload becomes the error. */
  function Failed(s: OrderState, err: Option<string>): (r: OrderState)
    ensures !r.isLoading && r.error == err
    ensures r.(isLoading := s.isLoading, error := s.error) == s
  {
    s.(isLoading := false, error := err)
  }

  /** `updateOrderInList`: the first order with the payload's id is replaced by
      the payload; an unknown id changes nothing. */
  function UpdateOrderInList(s: OrderState, o: Order): (r: OrderState)
    ensures |r.orders| == |s.orders|
    ensures r.(orders := s.orders) == s
    ensures FindIndex(s.orders, OrderId, o.id) == -1 ==> r == s
    ensures var k := FindIndex(s.orders, OrderId, o.id);
      k != -1 ==> r.orders == s.orders[k := o]
  {
    var k := FindIndex(s.orders, OrderId, o.id);
    if k == -1 then s else s.(orders := s.orders[k := o])
  }

  /** The fulfilled cases of `updateOrderStatus` and `cancelOrder`: the server's
      copy replaces the listed order and, when it is the one on display, the
      current order. No status transition is checked, and neither thunk has a
      pending or rejected case, so the loading flag and the error stay. */
  function ApplyServerOrder(s: OrderState, o: Order): (r: OrderState)
    ensures r.orders == UpdateOrderInList(s, o).orders
    ensures s.currentOrder.Some? && s.currentOrder.value.id == o.id ==> r.currentOrder == Some(o)
    ensures !(s.currentOrder.Some? && s.currentOrder.value.id == o.id) ==> r.currentOrder == s.currentOrder
    ensures r.isLoading == s.isLoading && r.error == s.error && r.orderStatuses == s.orderStatuses
  {
    var listed := UpdateOrderInList(s, o);
    if s.currentOrder.Some? && s.currentOrder.value.id == o.id then listed.(currentOrder := Some(o))
    else listed
  }

  /** The slice reducer. The status list is never touched; each pending case
      starts a request, the two clear cases touch only their own field, and
      only the cases that receive orders change the list. */
  function Reduce(s: OrderState, a: Action): (r: OrderState)
    ensures r.orderStatuses == s.orderStatuses
    ensures a.CreatePending? || a.FetchPending? || a.FetchByIdPending? ==> r.isLoading && r.error.None?
    ensures a.CreateRejected? || a.FetchRejected? || a.FetchByIdRejected? ==> !r.isLoading && r.error == a.err
    ensures a.ClearError? ==> r.error.None? && r.(error := s.error) == s
    ensures a.ClearCurrentOrder? ==> r.currentOrder.None? && r.(currentOrder := s.currentOrder) == s
    ensures a.UpdateInList? || a.StatusUpdated? || a.CancelFulfilled? ==> r.isLoading == s.isLoading && r.error == s.error
    ensures r.orders != s.orders ==>
      a.UpdateInList? || a.CreateFulfilled? || a.FetchFulfilled? || a.StatusUpdated? || a.CancelFulfilled?
    ensures a.UpdateInList? ==> r == UpdateOrderInList(s, a.order)
    ensures a.StatusUpdated? || a.CancelFulfilled? ==> r == ApplyServerOrder(s, a.order)
    ensures a.CreateFulfilled? ==>
      && !r.isLoading && r.orders == [a.order] + s.orders && r.currentOrder == Some(a.order)
      && r.(isLoading := s.isLoading, orders := s.orders, currentOrder := s.currentOrder) == s
    ensures a.FetchFulfilled? ==>
      && !r.isLoading && r.orders == a.orders
      && r.(isLoading := s.isLoading, orders := s.orders) == s
    ensures a.FetchByIdFulfilled? ==>
      && !r.isLoading && r.currentOrder == Some(a.order)
      && r.(isLoading := s.isLoading, currentOrder := s.currentOrder) == s
  {
    match a
    case ClearError => s.(error := None)
    case ClearCurrentOrder => s.(currentOrder := None)
    case UpdateInList(o) => UpdateOrderInList(s, o)
    case CreatePending => Started(s)
    case CreateFulfilled(o) => s.(isLoading := false, orders := [o] + s.orders, currentOrder := Some(o))
    case CreateRejected(e) => Failed(s, e)
    case FetchPending => Started(s)
    case FetchFulfilled(os) => s.(isLoading := false, orders := os)
    case FetchRejected(e) => Failed(s, e)
    case FetchByIdPending => Started(s)
    case FetchByIdFulfilled(o) => s.(isLoading := false, currentOrder := Some(o))
    case FetchByIdRejected(e) => Failed(s, e)
    case StatusUpdated(o) => ApplyServerOrder(s, o)
    case CancelFulfilled(o) => ApplyServerOrder(s, o)
  }

  function ReduceAll(s: OrderState, actions: seq<Action>): OrderState
    decreases |actions|
  {
    if |actions| == 0 then s else ReduceAll(Reduce(s, actions[0]), actions[1..])
  }

  /** A created order is shown first in the list and becomes the current one. */
  lemma CreateFulfilledShowsOrder(s: OrderState, o: Order)
    ensures var r := Reduce(s, CreateFulfilled(o));
      && r.orders[0] == o && r.orders[1..] == s.orders
      && r.currentOrder == Some(o) && !r.isLoading && r.error == s.error
  {
  }

  /** A request that starts and then succeeds leaves no error and no spinner. */
  lemma {:induction false} StartThenSucceed(s: OrderState, o: Order, os: seq<Order>)
    ensures var r := Reduce(Reduce(s, CreatePending), CreateFulfilled(o)); !r.isLoading && r.error.None?
    ensures var r := Reduce(Reduce(s, FetchPending), FetchFulfilled(os)); !r.isLoading && r.error.None? && r.orders == os
    ensures var r := Reduce(Reduce(s, FetchByIdPending), FetchByIdFulfilled(o)); !r.isLoading && r.error.None? && r.currentOrder == Some(o)
  {
  }

  /** The status list never changes, whatever is dispatched. */
  lemma {:induction false} StatusesConstant(s: OrderState, actions: seq<Action>)
    ensures ReduceAll(s, actions).orderStatuses == s.orderStatuses
    decreases |actions|
  {
    if |actions| > 0 {
      StatusesConstant(Reduce(s, actions[0]), actions[1..]);
    }
  }

  /** Replacing orders by id keeps the list's ids one per order. */
  lemma ServerUpdatesKeepIdsUnique(s: OrderState, o: Order)
    requires UniqueKeys(s.orders, OrderId)
    ensures UniqueKeys(Reduce(s, UpdateInList(o)).orders, OrderId)
    ensures UniqueKeys(Reduce(s, StatusUpdated(o)).orders, OrderId)
    ensures UniqueKeys(Reduce(s, CancelFulfilled(o)).orders, OrderId)
  {
    var k := FindIndex(s.orders, OrderId, o.id);
    if k != -1 {
      assert s.orders[k := o] == ReplaceFirst(s.orders, OrderId, o);
      ReplaceFirstUnique(s.orders, OrderId, o);
    }
  }

  /** Replacing by id keeps the same ids at the same positions. */
  lemma ServerUpdatesKeepIds(s: OrderState, o: Order)
    ensures var r := Reduce(s, StatusUpdated(o)).orders;
      |r| == |s.orders| && forall i :: 0 <= i < |r| ==> r[i].id == s.orders[i].id
  {
  }
}

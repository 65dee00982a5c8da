/** Orders: the closed set of lifecycle statuses and the order record shared by
    the static site's storage helpers and the application's order slice. */
module Orders {
  import opened Common
  import opened StaticCart

  /** The seven statuses of the order slice's `orderStatuses` list. */
  datatype OrderStatus = Pending | Confirmed | Preparing | Ready | OutForDelivery | Delivered | Cancelled

  /** The status as the string the source stores. */
  function StatusName(s: OrderStatus): string
  {
    match s
    case Pending => "pending"
    case Confirmed => "confirmed"
    case Preparing => "preparing"
    case Ready => "ready"
    case OutForDelivery => "out_for_delivery"
    case Delivered => "delivered"
    case Cancelled => "cancelled"
  }

  /** The status a stored string names, if any. */
  function ParseStatus(name: string): (r: Option<OrderStatus>)
    ensures r.Some? ==> StatusName(r.value) == name
    ensures r.None? <==> forall s: OrderStatus :: StatusName(s) != name
  {
    if name == "pending" then Some(Pending)
    else if name == "confirmed" then Some(Confirmed)
    else if name == "preparing" then Some(Preparing)
    else if name == "ready" then Some(Ready)
    else if name == "out_for_delivery" then Some(OutForDelivery)
    else if name == "delivered" then Some(Delivered)
    else if name == "cancelled" then Some(Cancelled)
    else None
  }

  /** Every status survives being written out and read back. */
  lemma StatusRoundTrip(s: OrderStatus)
    ensures ParseStatus(StatusName(s)) == Some(s)
  {
  }

  /** The slice's `orderStatuses`, in its order. */
  const OrderStatuses: seq<OrderStatus> :=
    [Pending, Confirmed, Preparing, Ready, OutForDelivery, Delivered, Cancelled]

  /** The list holds seven distinct names and covers every status. */
  lemma OrderStatusesComplete(s: OrderStatus)
    ensures |OrderStatuses| == 7
    ensures s in OrderStatuses
    ensures forall i, j :: 0 <= i < j < |OrderStatuses| ==> StatusName(OrderStatuses[i]) != StatusName(OrderStatuses[j])
  {
  }

  /** An order record. */
  datatype Order = Order(
    id: string,
    userId: string,
    items: seq<StoredLine>,
    total: int,
    status: OrderStatus,
    deliveryAddress: string,
    createdAt: string,
    updatedAt: string)

  function OrderId(o: Order): string
  {
    o.id
  }

  function OrderUserId(o: Order): string
  {
    o.userId
  }
}

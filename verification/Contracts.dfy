/** The order-fulfilment events, routing keys and topology. */
module Contracts {
  type OrderId = string
  type Sku = string

  datatype Order = Order(id: OrderId, customer: string, sku: Sku, quantity: int, total: real)

  /** Why payments or inventory said no; the text is derived from this. */
  datatype Reason = OverTheAutomaticLimit | OnlyLeft(available: int)

  datatype Event =
    | OrderPlaced(order: Order)
    | PaymentCaptured(id: OrderId, customer: string, sku: Sku, quantity: int, amount: real)
    | PaymentDeclined(id: OrderId, customer: string, reason: Reason)
    | StockReserved(id: OrderId, customer: string, sku: Sku, quantity: int)
    | StockUnavailable(id: OrderId, customer: string, sku: Sku, reason: Reason)
    | OrderShipped(id: OrderId, customer: string, tracking: string)

  /** An event in its envelope: the message type and the correlation id the
      publisher chose. */
  datatype Message = Message(body: Event, kind: string, correlation: OrderId)

  function IdOf(e: Event): OrderId {
    if e.OrderPlaced? then e.order.id else e.id
  }

  function KeyOf(e: Event): string {
    match e
    case OrderPlaced(_) => "fulfilment.order.placed"
    case PaymentCaptured(_, _, _, _, _) => "fulfilment.payment.captured"
    case PaymentDeclined(_, _, _) => "fulfilment.payment.declined"
    case StockReserved(_, _, _, _) => "fulfilment.stock.reserved"
    case StockUnavailable(_, _, _, _) => "fulfilment.stock.unavailable"
    case OrderShipped(_, _, _) => "fulfilment.order.shipped"
  }

  datatype Queue = PaymentsQueue | InventoryQueue | ShippingQueue | NotificationsQueue

  /** The bindings of the topology: an exact key for each working queue, and
      the wildcard `fulfilment.#` for notifications. */
  predicate Bound(q: Queue, key: string) {
    match q
    case PaymentsQueue => key == "fulfilment.order.placed"
    case InventoryQueue => key == "fulfilment.payment.captured"
    case ShippingQueue => key == "fulfilment.stock.reserved"
    case NotificationsQueue => "fulfilment." <= key
  }

  /** The working queue an event reaches, if any. */
  datatype Route = To(queue: Queue) | Nowhere

  function WorkQueue(e: Event): Route {
    match e
    case OrderPlaced(_) => To(PaymentsQueue)
    case PaymentCaptured(_, _, _, _, _) => To(InventoryQueue)
    case StockReserved(_, _, _, _) => To(ShippingQueue)
    case _ => Nowhere
  }

  /** The topology delivers every event to notifications, and to exactly the
      one working queue `WorkQueue` names: placed orders to payments, captures to
      inventory, reservations to shipping. */
  lemma TopologyRoutes(e: Event, q: Queue)
    ensures Bound(q, KeyOf(e)) <==> q == NotificationsQueue || WorkQueue(e) == To(q)
    ensures Bound(q, KeyOf(e)) <==>
              || q == NotificationsQueue || (q == PaymentsQueue && e.OrderPlaced?)
              || (q == InventoryQueue && e.PaymentCaptured?) || (q == ShippingQueue && e.StockReserved?)
  {
    var k := KeyOf(e);
    assert |"fulfilment.order.placed"| == 23 && |"fulfilment.payment.captured"| == 27 && |"fulfilment.payment.declined"| == 27;
    assert |"fulfilment.stock.reserved"| == 25 && |"fulfilment.stock.unavailable"| == 28 && |"fulfilment.order.shipped"| == 24;
    assert "fulfilment.payment.captured"[19] == 'c' && "fulfilment.payment.declined"[19] == 'd';
    assert k[..11] == "fulfilment.";
  }
}

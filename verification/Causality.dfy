/** Nothing is announced that was not committed, and every event has its cause
    before it, whatever is delivered, published or crashes more than once. */
module Causality {
  import opened Contracts
  import opened Fulfilment
  import opened Messaging
  import Gateway
  import Inventory
  import Payments
  import Shipping

  /** The one message each service can publish for an order that gets that far. */
  function PlacedOf(o: Order): Message {
    Message(OrderPlaced(o), "OrderPlaced", o.id)
  }

  function CapturedOf(o: Order): Message {
    Message(PaymentCaptured(o.id, o.customer, o.sku, o.quantity, o.total), "PaymentCaptured", o.id)
  }

  function DeclinedOf(o: Order): Message {
    Message(PaymentDeclined(o.id, o.customer, OverTheAutomaticLimit), "PaymentDeclined", o.id)
  }

  function ReservedOf(o: Order): Message {
    Message(StockReserved(o.id, o.customer, o.sku, o.quantity), "StockReserved", o.id)
  }

  function UnavailableOf(o: Order, available: int): Message {
    Message(StockUnavailable(o.id, o.customer, o.sku, OnlyLeft(available)), "StockUnavailable", o.id)
  }

  function ShippedOf(o: Order): Message {
    Message(OrderShipped(o.id, o.customer, Shipping.Tracking(o.id)), "OrderShipped", o.id)
  }

  /** A message is the image of a committed order, and its cause is earlier. */
  predicate Caused(rows: map<OrderId, Order>, earlier: seq<Message>, m: Message) {
    var id := IdOf(m.body);
    && id in rows
    && var o := rows[id];
       match m.body
       case OrderPlaced(_) => m == PlacedOf(o)
       case PaymentCaptured(_, _, _, _, _) => m == CapturedOf(o) && o.total <= Payments.AUTOMATIC_LIMIT && PlacedOf(o) in earlier
       case PaymentDeclined(_, _, _) => m == DeclinedOf(o) && o.total > Payments.AUTOMATIC_LIMIT && PlacedOf(o) in earlier
       case StockReserved(_, _, _, _) => m == ReservedOf(o) && CapturedOf(o) in earlier
       case StockUnavailable(_, _, _, reason) =>
         reason.OnlyLeft? && m == UnavailableOf(o, reason.available) && CapturedOf(o) in earlier
       case OrderShipped(_, _, _) => m == ShippedOf(o) && ReservedOf(o) in earlier
  }

  predicate Ledgered(b: Gateway.Books, log: seq<Message>) {
    && (forall id :: id in b.rows ==> b.rows[id].id == id && (id in b.outbox || PlacedOf(b.rows[id]) in log))
    && (forall id :: id in b.outbox ==> id in b.rows && b.outbox[id] == PlacedOf(b.rows[id]))
    && (forall id :: id in b.confirmed ==> id in b.outbox && PlacedOf(b.rows[id]) in log)
  }

  predicate History(rows: map<OrderId, Order>, log: seq<Message>) {
    forall j :: 0 <= j < |log| ==> Caused(rows, log[..j], log[j])
  }

  predicate Sourced(s: State) {
    forall j :: 0 <= j < |s.deliveries| ==> s.deliveries[j].msg in s.log && WorkQueue(s.deliveries[j].msg.body).To?
  }

  predicate Causal(s: State) {
    Ledgered(s.books, s.log) && History(s.books.rows, s.log) && Sourced(s)
  }

  lemma HistoryGrows(rows: map<OrderId, Order>, log: seq<Message>, m: Message)
    requires History(rows, log) && Caused(rows, log, m)
    ensures History(rows, log + [m])
  {
    var l := log + [m];
    forall j | 0 <= j < |l| ensures Caused(rows, l[..j], l[j]) {
      assert l[..j] == log[..j];
    }
  }

  /** Anything in the log has its cause in the log. */
  lemma InLog(s: State, m: Message)
    requires Causal(s) && m in s.log
    ensures Caused(s.books.rows, s.log, m)
  {
    var j :| 0 <= j < |s.log| && s.log[j] == m;
    assert Caused(s.books.rows, s.log[..j], m);
  }

  lemma PublishKeeps(s: State, sent: seq<Message>)
    requires Causal(s) && |sent| <= 1 && (sent != [] ==> Caused(s.books.rows, s.log, sent[0]))
    ensures Causal(Publish(s, sent))
  {
    if sent != [] {
      assert sent == [sent[0]];
      HistoryGrows(s.books.rows, s.log, sent[0]);
    }
  }

  /** A handler changes where its delivery stands, not what was announced. */
  lemma HandlerKeeps(s: State, s': State, i: nat)
    requires Causal(s) && i < |s.deliveries| && i < |s'.deliveries|
    requires s'.books == s.books && s'.log == s.log
    requires s'.deliveries == s.deliveries[i := s'.deliveries[i]] && s'.deliveries[i].msg == s.deliveries[i].msg
    ensures Causal(s')
  {
  }

  lemma ChargeIsCaused(rows: map<OrderId, Order>, log: seq<Message>, t: Payments.Till, m: Message, p: Phase, r: Reply)
    requires m in log && Caused(rows, log, m) && m.body.OrderPlaced? && Payments.Works(p)
    ensures var sent := Payments.Step(t, m, p, r).sent; sent != [] ==> Caused(rows, log, sent[0])
  {
  }

  lemma ReserveIsCaused(rows: map<OrderId, Order>, log: seq<Message>, t: Inventory.Shelf, m: Message, p: Phase, r: Reply)
    requires m in log && Caused(rows, log, m) && m.body.PaymentCaptured? && Inventory.Works(p)
    ensures var sent := Inventory.Step(t, m, p, r).sent; sent != [] ==> Caused(rows, log, sent[0])
  {
  }

  lemma SentIsCaused(s: State, i: nat, r: Reply)
    requires Causal(s) && Enabled(s, Advance(i, r))
    ensures var sent := Sent(s, i, r); sent != [] ==> Caused(s.books.rows, s.log, sent[0])
  {
    var d := s.deliveries[i];
    InLog(s, d.msg);
    if d.msg.body.OrderPlaced? { ChargeIsCaused(s.books.rows, s.log, s.till, d.msg, d.phase, r); }
    else if d.msg.body.PaymentCaptured? { ReserveIsCaused(s.books.rows, s.log, s.shelf, d.msg, d.phase, r); }
  }

  lemma AdvanceKeeps(s: State, i: nat, r: Reply)
    requires Causal(s) && Enabled(s, Advance(i, r))
    ensures Causal(Advanced(s, i, r))
  {
    SentIsCaused(s, i, r);
    HandlerKeeps(s, Handled(s, i, r), i);
    PublishKeeps(Handled(s, i, r), Sent(s, i, r));
  }

  lemma RelayKeeps(s: State, id: OrderId, r: Reply)
    requires Causal(s) && Enabled(s, Relay(id, r))
    ensures Causal(Relayed(s, id, r))
  {
    if r != Failed {
      var m, s' := s.books.outbox[id], Relayed(s, id, r);
      PublishKeeps(s, [m]);
      ConfirmKeeps(Publish(s, [m]), s');
    }
  }

  /** The relay notes what it has published. */
  lemma ConfirmKeeps(s: State, s': State)
    requires Causal(s) && s'.log == s.log && s'.deliveries == s.deliveries
    requires s'.books == s.books.(confirmed := s'.books.confirmed)
    requires forall id :: id in s'.books.confirmed ==> id in s.books.outbox && s.books.outbox[id] in s.log
    ensures Causal(s')
  {
  }

  lemma PlaceKeeps(s: State, o: Order)
    requires Causal(s) && Enabled(s, Place(o))
    ensures Causal(Step(s, Place(o)))
  {
    forall j | 0 <= j < |s.log| ensures Caused(s.books.rows[o.id := o], s.log[..j], s.log[j]) {
      assert Caused(s.books.rows, s.log[..j], s.log[j]);
    }
  }

  lemma CausalStep(s: State, a: Action)
    requires Causal(s) && Enabled(s, a)
    ensures Causal(Step(s, a))
  {
    match a
    case Advance(i, r) => AdvanceKeeps(s, i, r);
    case Relay(id, r) => RelayKeeps(s, id, r);
    case Place(o) => PlaceKeeps(s, o);
    case Crash(i, spends) => HandlerKeeps(s, Crashed(s, i, spends), i);
    case _ =>
  }
}

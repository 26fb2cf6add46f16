/** The whole order-fulfilment system as one transition system.

    Any number of instances run; a handler may be interrupted between any two of
    its atomic actions, so the state of a handler is kept with its delivery. */
module Fulfilment {
  import opened Collections
  import opened Contracts
  import opened Messaging
  import Claims
  import Gateway
  import Inventory
  import Notifications
  import Payments
  import Shipping

  /** One message in a working queue, with the attempts it has left. */
  datatype Delivery = Delivery(msg: Message, left: nat, phase: Phase) {
    predicate Live() {
      phase != Settled(Accept) && phase != Dead
    }
  }

  /** What the environment did that the theorems have to count. */
  datatype Fault =
    | ClaimExpired(id: OrderId)       // a held claim timed out
    | OutcomeUnsure(id: OrderId)      // payments was told a publish failed, and it had not
    | Stranded(id: OrderId)           // a claim was left with nobody to release it
    | Duplicated(id: OrderId)         // a message about the order was delivered or published again
    | PublishFailed                   // inventory was told a publish failed

  /** What became of inventory's attempts. */
  datatype Tally = Tally(
    retried: nat,                     // retries a handler asked for, as the library counts them
    dropped: nat,                     // dead letters no handler asked for
    killed: nat,                      // attempts spent by the death of a handler
    copied: nat,                      // attempts that redelivered copies came without
    spent: multiset<OrderId>)         // the attempts of each order that were spent, by a handler or by its death

  datatype State = State(
    books: Gateway.Books,
    log: seq<Message>,                // everything published, in order
    deliveries: seq<Delivery>,        // everything routed to a working queue, in order
    till: Payments.Till,
    shelf: Inventory.Shelf,
    shipped: nat,
    tally: Tally,                     // inventory's attempts
    timeline: Notifications.Timeline,
    seen: nat,                        // how much of the log notifications has been delivered
    heard: seq<Message>,              // every message notifications has handled, in order
    shipAttempts: nat,
    faults: multiset<Fault>,
    supplied: map<Sku, int>,          // stock put on the shelf
    phantom: map<Sku, int>,           // stock put back although its reservation was published
    mislaid: map<Sku, int>)           // stock a handler had taken when it died

  datatype Action =
    | Place(order: Order)
    | Relay(id: OrderId, reply: Reply)
    | Remove(id: OrderId)
    | RelayCrash
    | Advance(i: nat, reply: Reply)
    | Crash(i: nat, spends: bool)
    | Redeliver(i: nat, left: nat)
    | Expire(id: OrderId)
    | Restock(sku: Sku, quantity: int)
    | Notify
    | Renotify(k: nat)

  function Init(failures: nat, shipAttempts: nat): State {
    State(Gateway.Books(map[], map[], {}), [], [], Payments.Till(map[], 0, 0, 0),
          Inventory.Flaky(Inventory.Shelf(map[], 0, 0, 0, 0), failures),
          0, Tally(0, 0, 0, 0, multiset{}), map[], 0, [], shipAttempts, multiset{}, map[], map[], map[])
  }

  function Attempts(s: State, q: Queue): nat {
    match q
    case PaymentsQueue => Payments.ATTEMPTS
    case InventoryQueue => Inventory.ATTEMPTS
    case _ => s.shipAttempts
  }

  /** The phases a delivery can be in, which its queue decides. */
  predicate Works(d: Delivery) {
    match d.msg.body
    case OrderPlaced(_) => Payments.Works(d.phase)
    case PaymentCaptured(_, _, _, _, _) => Inventory.Works(d.phase)
    case StockReserved(_, _, _, _) => d.phase == Waiting
    case _ => false
  }

  predicate Enabled(s: State, a: Action) {
    match a
    case Place(o) => o.id !in s.books.rows
    case Relay(id, _) => id in s.books.outbox && id !in s.books.confirmed
    case Remove(id) => id in s.books.confirmed
    case RelayCrash => true
    case Advance(i, _) => i < |s.deliveries| && Works(s.deliveries[i])
    case Crash(i, _) => i < |s.deliveries| && Works(s.deliveries[i])
    case Redeliver(i, left) =>
      && i < |s.deliveries| && WorkQueue(s.deliveries[i].msg.body).To?
      && s.deliveries[i].left <= left <= Attempts(s, WorkQueue(s.deliveries[i].msg.body).queue)
    case Expire(id) => id in s.till.claims && s.till.claims[id] == Claims.Held
    case Restock(_, _) => true
    case Notify => s.seen < |s.log|
    case Renotify(k) => k < s.seen && k < |s.log|
  }

  function Step(s: State, a: Action): State
    requires Enabled(s, a)
  {
    match a
    case Place(o) => s.(books := Gateway.Placed(s.books, o))
    case Relay(id, r) => Relayed(s, id, r)
    case Remove(id) => s.(books := s.books.(outbox := s.books.outbox - {id}, confirmed := s.books.confirmed - {id}))
    case RelayCrash => s.(books := s.books.(confirmed := {}))
    case Advance(i, r) => Advanced(s, i, r)
    case Crash(i, spends) => Crashed(s, i, spends)
    case Redeliver(i, left) => Redelivered(s, i, left)
    case Expire(id) =>
      s.(till := s.till.(claims := s.till.claims[id := Claims.Expired]),
         faults := s.faults + multiset{ClaimExpired(id)})
    case Restock(sku, quantity) =>
      s.(shelf := Inventory.Stocked(s.shelf, sku, quantity),
         supplied := Add(s.supplied, sku, quantity - Get(s.shelf.stock, sku)))
    case Notify => Notified(s)
    case Renotify(k) => Renotified(s, k)
  }

  /** Notifications handles one message, the first time or again. */
  function Heard(s: State, m: Message): State {
    s.(timeline := Notifications.Recorded(s.timeline, m), heard := s.heard + [m])
  }

  function Notified(s: State): State
    requires Enabled(s, Notify)
  {
    Heard(s, s.log[s.seen]).(seen := s.seen + 1)
  }

  /** An acknowledgement of notifications is lost, and it is delivered the message again. */
  function Renotified(s: State, k: nat): State
    requires Enabled(s, Renotify(k))
  {
    Heard(s, s.log[k]).(faults := s.faults + multiset{Duplicated(s.log[k].correlation)})
  }

  /** The exchange: the log grows, and a bound working queue gets a delivery. */
  function Publish(s: State, sent: seq<Message>): State
    requires |sent| <= 1
  {
    if sent == [] then s
    else s.(log := s.log + sent, deliveries := s.deliveries + Routed(s, sent[0]))
  }

  function Routed(s: State, m: Message): seq<Delivery> {
    if WorkQueue(m.body).To? then [Delivery(m, Attempts(s, WorkQueue(m.body).queue), Waiting)] else []
  }

  /** The library's part of an acknowledgement: a retry spends an attempt. */
  function Acknowledged(d: Delivery, p: Phase): Delivery {
    if p != Settled(Retry) then d.(phase := p)
    else if d.left > 1 then d.(left := d.left - 1, phase := Waiting)
    else d.(left := 0, phase := Dead)
  }

  function Relayed(s: State, id: OrderId, r: Reply): State
    requires Enabled(s, Relay(id, r))
  {
    if r == Failed then s
    else
      var m := s.books.outbox[id];
      var again := if m in s.log then multiset{Duplicated(id)} else multiset{};
      var confirmed := if r == Ok then s.books.confirmed + {id} else s.books.confirmed;
      Publish(s.(books := s.books.(confirmed := confirmed), faults := s.faults + again), [m])
  }

  function Advanced(s: State, i: nat, r: Reply): State
    requires Enabled(s, Advance(i, r))
  {
    Publish(Handled(s, i, r), Sent(s, i, r))
  }

  /** What one atomic action of a handler publishes. */
  function Sent(s: State, i: nat, r: Reply): (sent: seq<Message>)
    requires Enabled(s, Advance(i, r))
    ensures |sent| <= 1
  {
    var d := s.deliveries[i];
    if d.msg.body.OrderPlaced? then Payments.Step(s.till, d.msg, d.phase, r).sent
    else if d.msg.body.PaymentCaptured? then Inventory.Step(s.shelf, d.msg, d.phase, r).sent
    else Shipping.Step(s.shipped, d.msg, r).sent
  }

  /** What one atomic action of a handler changes apart from that. */
  function Handled(s: State, i: nat, r: Reply): (s1: State)
    requires Enabled(s, Advance(i, r))
    ensures Framed(s, s1, i)
  {
    var e := s.deliveries[i].msg.body;
    if e.OrderPlaced? then Charging(s, i, r)
    else if e.PaymentCaptured? then Reserving(s, i, r)
    else Dispatching(s, i, r)
  }

  /** A handler's action leaves everything but its own service and delivery alone. */
  ghost predicate Framed(s: State, s1: State, i: nat) {
    && i < |s.deliveries| == |s1.deliveries|
    && s1.deliveries == s.deliveries[i := s1.deliveries[i]]
    && s1.deliveries[i].msg == s.deliveries[i].msg
    && s1.log == s.log && s1.books == s.books && s.faults <= s1.faults
    && s1.timeline == s.timeline && s1.seen == s.seen && s1.heard == s.heard && s1.shipAttempts == s.shipAttempts
  }

  /** One action of `charge`, before its message reaches the exchange. */
  function Charging(s: State, i: nat, r: Reply): (s1: State)
    requires Enabled(s, Advance(i, r)) && s.deliveries[i].msg.body.OrderPlaced?
    ensures Framed(s, s1, i)
  {
    var d := s.deliveries[i];
    var turn := Payments.Step(s.till, d.msg, d.phase, r);
    s.(till := turn.state, deliveries := s.deliveries[i := Acknowledged(d, turn.phase)],
       faults := s.faults + ChargeFaults(d, r))
  }

  function ChargeFaults(d: Delivery, r: Reply): multiset<Fault>
    requires d.msg.body.OrderPlaced?
  {
    var id := d.msg.body.order.id;
    if d.phase == Holding && r == Ambiguous then multiset{OutcomeUnsure(id), Duplicated(id)}
    else if d.phase == Waiting && r == Ambiguous then multiset{Stranded(id)}
    else if d.phase == Failing && r == Failed then multiset{Stranded(id)}
    else multiset{}
  }

  /** One action of `reserve`, before its message reaches the exchange. */
  function Reserving(s: State, i: nat, r: Reply): (s1: State)
    requires Enabled(s, Advance(i, r)) && s.deliveries[i].msg.body.PaymentCaptured?
    ensures Framed(s, s1, i)
  {
    var d := s.deliveries[i];
    var turn := Inventory.Step(s.shelf, d.msg, d.phase, r);
    s.(shelf := turn.state, deliveries := s.deliveries[i := Acknowledged(d, turn.phase)],
       tally := Tried(s.tally, d, turn.phase), faults := s.faults + ReserveFaults(d, r), phantom := PutBackTwice(s.phantom, d))
  }

  /** A retry, or the dead letter in place of it, spends an attempt of the order. */
  function Tried(t: Tally, d: Delivery, p: Phase): Tally
    requires d.msg.body.PaymentCaptured?
  {
    if p != Settled(Retry) then t
    else t.(retried := t.retried + (if d.left > 1 then 1 else 0), spent := t.spent + multiset{d.msg.body.id})
  }

  function ReserveFaults(d: Delivery, r: Reply): multiset<Fault>
    requires d.msg.body.PaymentCaptured?
  {
    if r == Ok || !(d.phase == Holding || d.phase.Lacking?) then multiset{}
    else if r == Failed then multiset{PublishFailed}
    else multiset{PublishFailed, Duplicated(d.msg.body.id)}
  }

  /** Stock goes back on the shelf although its reservation was published. */
  function PutBackTwice(phantom: map<Sku, int>, d: Delivery): map<Sku, int>
    requires d.msg.body.PaymentCaptured?
  {
    if d.phase == Unsure then Add(phantom, d.msg.body.sku, d.msg.body.quantity) else phantom
  }

  /** One action of `dispatch`, before its message reaches the exchange. */
  function Dispatching(s: State, i: nat, r: Reply): (s1: State)
    requires Enabled(s, Advance(i, r)) && s.deliveries[i].msg.body.StockReserved?
    ensures Framed(s, s1, i)
  {
    var d := s.deliveries[i];
    var turn := Shipping.Step(s.shipped, d.msg, r);
    s.(shipped := turn.state, deliveries := s.deliveries[i := Acknowledged(d, turn.phase)],
       faults := s.faults + if r == Ambiguous then multiset{Duplicated(d.msg.body.id)} else multiset{})
  }

  /** An instance dies inside a handler, and the broker gives the delivery to another
      or, when that spends the last attempt, to the dead-letter queue. At payments a
      claim it was about to use is left behind; at inventory the stock it had taken is
      lost with it. */
  function Crashed(s: State, i: nat, spends: bool): State
    requires Enabled(s, Crash(i, spends))
  {
    var d := s.deliveries[i];
    s.(deliveries := s.deliveries[i := Interrupted(d, spends)],
       faults := s.faults + CrashFaults(d),
       tally := if spends then Killed(s.tally, d) else s.tally,
       mislaid := if InHand(d) then Add(s.mislaid, d.msg.body.sku, d.msg.body.quantity) else s.mislaid)
  }

  function Interrupted(d: Delivery, spends: bool): Delivery {
    if spends then Acknowledged(d, Settled(Retry)) else d.(phase := Waiting)
  }

  function Killed(t: Tally, d: Delivery): Tally {
    if !d.msg.body.PaymentCaptured? then t
    else t.(killed := t.killed + 1, spent := t.spent + multiset{d.msg.body.id},
            dropped := t.dropped + if d.left > 1 then 0 else 1)
  }

  /** Only a crash after the publish can have the order decided again. */
  function CrashFaults(d: Delivery): multiset<Fault> {
    if !d.msg.body.OrderPlaced? then multiset{}
    else if d.phase in {Holding, Failing} then multiset{Stranded(d.msg.body.order.id)}
    else if d.phase == Published then multiset{Duplicated(d.msg.body.order.id)}
    else multiset{}
  }

  /** A delivery whose handler has taken stock that nobody was promised. */
  predicate InHand(d: Delivery) {
    d.msg.body.PaymentCaptured? && d.phase in {Holding, Failing}
  }

  /** An acknowledgement is lost: the broker delivers the message once more. Its count
      of attempts goes on, from where it is or from where it was at an earlier
      delivery; with none left it is dead-lettered before a handler sees it. */
  function Redelivered(s: State, i: nat, left: nat): State
    requires Enabled(s, Redeliver(i, left))
  {
    var d := s.deliveries[i];
    s.(deliveries := s.deliveries + [Copy(d, left)], faults := s.faults + multiset{Duplicated(IdOf(d.msg.body))},
       tally := Copied(s.tally, d, left))
  }

  function Copy(d: Delivery, left: nat): Delivery {
    Delivery(d.msg, left, if left == 0 then Dead else Waiting)
  }

  function Copied(t: Tally, d: Delivery, left: nat): Tally {
    if !d.msg.body.PaymentCaptured? || left > Inventory.ATTEMPTS then t
    else t.(copied := t.copied + Inventory.ATTEMPTS - left, dropped := t.dropped + if left == 0 then 1 else 0)
  }

  /** A run is a sequence of enabled actions. */
  predicate Valid(s: State, trace: seq<Action>)
    decreases |trace|
  {
    trace == [] || (Enabled(s, trace[0]) && Valid(Step(s, trace[0]), trace[1..]))
  }

  function Run(s: State, trace: seq<Action>): State
    requires Valid(s, trace)
    decreases |trace|
  {
    if trace == [] then s else Run(Step(s, trace[0]), trace[1..])
  }
}

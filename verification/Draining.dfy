/** Every run over finitely many disturbances drains: a weight on what is still
    to be handled drops at every step a service makes. */
module Draining {
  import opened Causality
  import opened Collections
  import opened Contracts
  import opened Fulfilment
  import opened Messaging
  import Gateway
  import Inventory
  import Payments
  import Shipping

  /** `n` attempts at cost `k` each. */
  function Times(k: nat, n: nat): nat {
    if n == 0 then 0 else k + Times(k, n - 1)
  }

  /** An attempt at inventory: four actions, an event to notify, and a delivery for shipping. */
  function ReserveCost(ship: nat): nat {
    5 + Times(2, ship)
  }

  /** An attempt at payments: three actions, an event to notify, and a delivery for inventory. */
  function ChargeCost(ship: nat): nat {
    4 + Times(ReserveCost(ship), Inventory.ATTEMPTS)
  }

  /** What one announcement, redelivery or crash can cause. */
  function Budget(ship: nat): nat {
    Times(ChargeCost(ship), Payments.ATTEMPTS) + 1
  }

  function Weight(ship: nat, d: Delivery): int {
    if d.left == 0 then 0
    else match d.msg.body
      case OrderPlaced(_) =>
        (match d.phase
         case Waiting => Times(ChargeCost(ship), d.left)
         case Holding => Times(ChargeCost(ship), d.left) - 1
         case Failing => Times(ChargeCost(ship), d.left - 1) + 1
         case Published => 1
         case _ => 0)
      case PaymentCaptured(_, _, _, _, _) =>
        (match d.phase
         case Waiting => Times(ReserveCost(ship), d.left)
         case Answered => Times(ReserveCost(ship), d.left) - 1
         case Holding => Times(ReserveCost(ship), d.left) - 2
         case Lacking(_) => Times(ReserveCost(ship), d.left) - 2
         case Failing => Times(ReserveCost(ship), d.left - 1) + 1
         case Unsure => Times(ReserveCost(ship), d.left - 1) + 1
         case _ => 0)
      case _ => if d.phase == Waiting then Times(2, d.left) else 0
  }

  ghost function WeightOf(ship: nat): Delivery -> int {
    (d: Delivery) => Weight(ship, d)
  }

  /** The weight of what is still to be handled. */
  ghost function Remaining(s: State): int {
    Sum(WeightOf(s.shipAttempts), s.deliveries) + |s.log| - s.seen
  }

  predicate WithinAttempts(ship: nat, d: Delivery) {
    && WorkQueue(d.msg.body).To?
    && (d.Live() ==> Works(d) && 1 <= d.left)
    && d.left <= (match d.msg.body
                  case OrderPlaced(_) => Payments.ATTEMPTS
                  case PaymentCaptured(_, _, _, _, _) => Inventory.ATTEMPTS
                  case _ => ship)
  }

  ghost predicate Regular(s: State) {
    && s.shipAttempts >= 1
    && s.seen <= |s.log|
    && (forall d :: d in s.deliveries ==> WithinAttempts(s.shipAttempts, d))
  }

  lemma {:induction false} TimesMonotone(k: nat, m: nat, n: nat)
    requires m <= n
    ensures Times(k, m) <= Times(k, n)
  {
    if m < n {
      TimesMonotone(k, m, n - 1);
    }
  }

  lemma WeightBounds(ship: nat, d: Delivery)
    requires ship >= 1 && WithinAttempts(ship, d)
    ensures 0 <= Weight(ship, d) < Budget(ship)
  {
    var c, r := ChargeCost(ship), ReserveCost(ship);
    assert Times(c, 4) == c + Times(c, 3) && Times(r, 4) == r + Times(r, 3);
    if d.msg.body.OrderPlaced? {
      TimesMonotone(c, d.left, 4);
    } else if d.msg.body.PaymentCaptured? {
      TimesMonotone(r, d.left, 4);
    } else {
      TimesMonotone(2, d.left, ship);
    }
  }

  lemma RoutedWeighs(s: State, m: Message)
    requires Regular(s)
    ensures var ds := s.deliveries + Routed(s, m);
            && (forall d :: d in ds ==> WithinAttempts(s.shipAttempts, d))
            && Sum(WeightOf(s.shipAttempts), ds) == Sum(WeightOf(s.shipAttempts), s.deliveries) + Fresh(s.shipAttempts, m)
            && 0 <= Fresh(s.shipAttempts, m) < Budget(s.shipAttempts)
  {
    if WorkQueue(m.body).To? {
      var d := Routed(s, m)[0];
      SumSnoc(WeightOf(s.shipAttempts), s.deliveries, d);
      WeightBounds(s.shipAttempts, d);
    } else {
      assert s.deliveries + [] == s.deliveries;
    }
  }

  /** The weight a message brings to its working queue. */
  function Fresh(ship: nat, m: Message): int {
    match m.body
    case OrderPlaced(_) => Times(ChargeCost(ship), Payments.ATTEMPTS)
    case PaymentCaptured(_, _, _, _, _) => Times(ReserveCost(ship), Inventory.ATTEMPTS)
    case StockReserved(_, _, _, _) => Times(2, ship)
    case _ => 0
  }

  function FreshOf(ship: nat, sent: seq<Message>): int {
    if sent == [] then 0 else Fresh(ship, sent[0]) + 1
  }

  lemma PublishWeighs(s: State, sent: seq<Message>)
    requires Regular(s) && |sent| <= 1
    ensures Regular(Publish(s, sent))
    ensures Remaining(Publish(s, sent)) == Remaining(s) + FreshOf(s.shipAttempts, sent)
  {
    if sent != [] {
      RoutedWeighs(s, sent[0]);
    }
  }

  lemma MoveWeighs(s: State, s1: State, i: nat)
    requires Regular(s) && Framed(s, s1, i) && WithinAttempts(s.shipAttempts, s1.deliveries[i])
    ensures Regular(s1)
    ensures Remaining(s1) == Remaining(s) - Weight(s.shipAttempts, s.deliveries[i]) + Weight(s.shipAttempts, s1.deliveries[i])
  {
    SumUpdate(WeightOf(s.shipAttempts), s.deliveries, i, s1.deliveries[i]);
    forall d | d in s1.deliveries ensures WithinAttempts(s.shipAttempts, d) {
      var j :| 0 <= j < |s1.deliveries| && s1.deliveries[j] == d;
      assert j != i ==> s.deliveries[j] == d;
    }
  }

  /** Each action of a handler lightens its delivery by more than it publishes. */
  lemma ChargeDrops(ship: nat, t: Payments.Till, d: Delivery, r: Reply)
    requires d.msg.body.OrderPlaced? && Works(d) && WithinAttempts(ship, d)
    ensures var turn := Payments.Step(t, d.msg, d.phase, r);
            var d' := Acknowledged(d, turn.phase);
            && WithinAttempts(ship, d')
            && Weight(ship, d') + FreshOf(ship, turn.sent) < Weight(ship, d)
  {
    assert Times(ChargeCost(ship), d.left) == ChargeCost(ship) + Times(ChargeCost(ship), d.left - 1);
  }

  lemma ReserveDrops(ship: nat, t: Inventory.Shelf, d: Delivery, r: Reply)
    requires d.msg.body.PaymentCaptured? && Works(d) && WithinAttempts(ship, d)
    ensures var turn := Inventory.Step(t, d.msg, d.phase, r);
            var d' := Acknowledged(d, turn.phase);
            && WithinAttempts(ship, d')
            && Weight(ship, d') + FreshOf(ship, turn.sent) < Weight(ship, d)
  {
    assert Times(ReserveCost(ship), d.left) == ReserveCost(ship) + Times(ReserveCost(ship), d.left - 1);
  }

  lemma DispatchDrops(ship: nat, n: nat, d: Delivery, r: Reply)
    requires d.msg.body.StockReserved? && Works(d) && WithinAttempts(ship, d)
    ensures var turn := Shipping.Step(n, d.msg, r);
            var d' := Acknowledged(d, turn.phase);
            && WithinAttempts(ship, d')
            && Weight(ship, d') + FreshOf(ship, turn.sent) < Weight(ship, d)
  {
    assert Times(2, d.left) == 2 + Times(2, d.left - 1);
  }

  lemma AdvanceDrops(s: State, i: nat, r: Reply)
    requires Regular(s) && Enabled(s, Advance(i, r))
    ensures Regular(Advanced(s, i, r))
    ensures Remaining(Advanced(s, i, r)) < Remaining(s)
  {
    var d := s.deliveries[i];
    assert Framed(s, Handled(s, i, r), i);
    if d.msg.body.OrderPlaced? { ChargeDrops(s.shipAttempts, s.till, d, r); }
    else if d.msg.body.PaymentCaptured? { ReserveDrops(s.shipAttempts, s.shelf, d, r); }
    else { DispatchDrops(s.shipAttempts, s.shipped, d, r); }
    MoveWeighs(s, Handled(s, i, r), i);
    PublishWeighs(Handled(s, i, r), Sent(s, i, r));
  }

  lemma RelayAdds(s: State, id: OrderId, r: Reply)
    requires Regular(s) && Enabled(s, Relay(id, r))
    ensures Regular(Relayed(s, id, r))
    ensures Remaining(Relayed(s, id, r)) <= Remaining(s) + if r == Failed then 0 else Budget(s.shipAttempts)
  {
    if r != Failed {
      var m, s' := s.books.outbox[id], Relayed(s, id, r);
      var s0 := s.(books := s'.books, faults := s'.faults);
      assert s' == Publish(s0, [m]) && Regular(s0);
      PublishWeighs(s0, [m]);
      RoutedWeighs(s0, m);
    }
  }

  lemma RedeliverAdds(s: State, i: nat, left: nat)
    requires Regular(s) && Enabled(s, Redeliver(i, left))
    ensures Regular(Redelivered(s, i, left))
    ensures Remaining(Redelivered(s, i, left)) <= Remaining(s) + Budget(s.shipAttempts)
  {
    var d := Copy(s.deliveries[i], left);
    SumSnoc(WeightOf(s.shipAttempts), s.deliveries, d);
    WeightBounds(s.shipAttempts, d);
  }

  lemma CrashAdds(s: State, i: nat, spends: bool)
    requires Regular(s) && Enabled(s, Crash(i, spends))
    ensures Regular(Crashed(s, i, spends))
    ensures Remaining(Crashed(s, i, spends)) <= Remaining(s) + Budget(s.shipAttempts)
  {
    var s' := Crashed(s, i, spends);
    assert s.deliveries[i] in s.deliveries;
    MoveWeighs(s, s', i);
    WeightBounds(s.shipAttempts, s.deliveries[i]);
    WeightBounds(s.shipAttempts, s'.deliveries[i]);
  }

  /** A step some service makes. */
  predicate IsWork(a: Action) {
    a.Advance? || a.Notify? || a.Renotify?
  }

  /** A handler dies, or a message is delivered once more. */
  predicate IsInterruption(a: Action) {
    a.Crash? || a.Redeliver? || a.Renotify?
  }

  /** The relay publishes a record, and knows that it has. */
  predicate IsAnnouncement(a: Action) {
    a.Relay? && a.reply == Ok
  }

  /** The relay publishes a record, and does not know that it has. */
  predicate IsUnsureRelay(a: Action) {
    a.Relay? && a.reply == Ambiguous
  }

  predicate IsPlace(a: Action) {
    a.Place?
  }

  predicate IsRelayCrash(a: Action) {
    a.RelayCrash?
  }

  /** A step that gives the services something to do. */
  predicate IsDisturbance(a: Action) {
    IsInterruption(a) || IsAnnouncement(a) || IsUnsureRelay(a)
  }

  lemma RemainingStep(s: State, a: Action)
    requires Regular(s) && Enabled(s, a)
    ensures Regular(Step(s, a)) && Step(s, a).shipAttempts == s.shipAttempts
    ensures (if IsWork(a) then 1 else 0) + Remaining(Step(s, a))
            <= Remaining(s) + if IsDisturbance(a) then Budget(s.shipAttempts) else 0
  {
    match a
    case Advance(i, r) => AdvanceDrops(s, i, r);
    case Relay(id, r) => RelayAdds(s, id, r);
    case Redeliver(i, left) => RedeliverAdds(s, i, left);
    case Crash(i, spends) => CrashAdds(s, i, spends);
    case _ =>
  }

  /** How many steps of a run are of a kind. */
  function Count(kind: Action -> bool, trace: seq<Action>): nat {
    if trace == [] then 0 else (if kind(trace[0]) then 1 else 0) + Count(kind, trace[1..])
  }

  function Work(trace: seq<Action>): nat {
    Count(IsWork, trace)
  }

  /** What a run asks of the services: every order placed is announced once, and again
      after each crash of the relay; beyond that there are the announcements the relay
      is not sure of, the deaths of handlers and the extra deliveries. */
  function Demand(trace: seq<Action>): nat {
    var placed := Count(IsPlace, trace);
    placed + Times(placed, Count(IsRelayCrash, trace))
      + Count(IsUnsureRelay, trace) + Count(IsInterruption, trace)
  }

  lemma RemainingNonNegative(s: State)
    requires Regular(s)
    ensures Remaining(s) >= 0
  {
    forall d | d in s.deliveries ensures WeightOf(s.shipAttempts)(d) >= 0 {
      WeightBounds(s.shipAttempts, d);
    }
    SumNonNegative(WeightOf(s.shipAttempts), s.deliveries);
  }

  lemma {:induction false} WorkIsBounded(s: State, trace: seq<Action>)
    requires Regular(s) && Fulfilment.Valid(s, trace)
    ensures Regular(Run(s, trace))
    ensures Work(trace) + Remaining(Run(s, trace)) <= Remaining(s) + Times(Budget(s.shipAttempts), Count(IsDisturbance, trace))
    decreases |trace|
  {
    if trace != [] {
      RemainingStep(s, trace[0]);
      WorkIsBounded(Step(s, trace[0]), trace[1..]);
    }
  }

  lemma {:induction false} DisturbancesSplit(trace: seq<Action>)
    ensures Count(IsDisturbance, trace) ==
            Count(IsAnnouncement, trace) + Count(IsUnsureRelay, trace) + Count(IsInterruption, trace)
  {
    if trace != [] {
      DisturbancesSplit(trace[1..]);
    }
  }

  /** The records the running relay has still to publish. */
  function Pending(b: Gateway.Books): set<OrderId> {
    b.outbox.Keys - b.confirmed
  }

  lemma SubsetSize<T>(x: set<T>, y: set<T>)
    requires x <= y
    ensures |x| <= |y|
  {
    assert y == x + (y - x);
  }

  lemma PlacePends(b: Gateway.Books, o: Order)
    requires o.id !in b.rows
    ensures |Gateway.Placed(b, o).rows| == |b.rows| + 1 && |Pending(Gateway.Placed(b, o))| <= |Pending(b)| + 1
  {
    assert Gateway.Placed(b, o).rows.Keys == b.rows.Keys + {o.id};
    assert Pending(Gateway.Placed(b, o)) <= Pending(b) + {o.id};
    SubsetSize(Pending(Gateway.Placed(b, o)), Pending(b) + {o.id});
  }

  /** An announcement takes a record from those pending; an order adds one, and a crash
      of the relay at most as many as there are orders. */
  lemma PendingStep(s: State, a: Action)
    requires Ledgered(s.books, s.log) && Enabled(s, a)
    ensures |Step(s, a).books.rows| == |s.books.rows| + if a.Place? then 1 else 0
    ensures (if IsAnnouncement(a) then 1 else 0) + |Pending(Step(s, a).books)|
            <= |Pending(s.books)| + (if a.Place? then 1 else 0) + (if a.RelayCrash? then |s.books.rows| else 0)
  {
    var b, b' := s.books, Step(s, a).books;
    match a
    case Place(o) => PlacePends(b, o);
    case Relay(id, r) => RelayPends(s, id, r);
    case Remove(id) => RemovePends(b, id);
    case RelayCrash => SubsetSize(Pending(b'), b.rows.Keys);
    case _ => BooksStay(s, a);
  }

  lemma RemovePends(b: Gateway.Books, id: OrderId)
    requires id in b.confirmed
    ensures Pending(b.(outbox := b.outbox - {id}, confirmed := b.confirmed - {id})) == Pending(b)
  {
  }

  lemma RelayPends(s: State, id: OrderId, r: Reply)
    requires Enabled(s, Relay(id, r))
    ensures Relayed(s, id, r).books.rows == s.books.rows
    ensures (if r == Ok then 1 else 0) + |Pending(Relayed(s, id, r).books)| <= |Pending(s.books)|
  {
    assert Pending(Relayed(s, id, r).books) == if r == Ok then Pending(s.books) - {id} else Pending(s.books);
  }

  lemma BooksStay(s: State, a: Action)
    requires Enabled(s, a) && !(a.Place? || a.Relay? || a.Remove? || a.RelayCrash?)
    ensures Step(s, a).books == s.books
  {
    if a.Advance? {
      assert Framed(s, Handled(s, a.i, a.reply), a.i);
    }
  }

  lemma {:induction false} AnnouncementsAreBounded(s: State, trace: seq<Action>, n: nat)
    requires Causal(s) && Fulfilment.Valid(s, trace)
    requires |s.books.rows| + Count(IsPlace, trace) <= n
    ensures Count(IsAnnouncement, trace)
            <= |Pending(s.books)| + Count(IsPlace, trace) + Times(n, Count(IsRelayCrash, trace))
    decreases |trace|
  {
    if trace != [] {
      var a, rest := trace[0], trace[1..];
      var s' := Step(s, a);
      assert Causal(s') by {
        CausalStep(s, a);
      }
      PendingStep(s, a);
      AnnouncementsAreBounded(s', rest, n);
      PendingAdds(|Pending(s.books)|, |Pending(s'.books)|, |s.books.rows|, trace, n);
    }
  }

  /** One more step in front of a run. */
  lemma PendingAdds(before: nat, after: nat, rows: nat, trace: seq<Action>, n: nat)
    requires trace != [] && rows + Count(IsPlace, trace) <= n
    requires (if IsAnnouncement(trace[0]) then 1 else 0) + after
             <= before + (if IsPlace(trace[0]) then 1 else 0) + (if IsRelayCrash(trace[0]) then rows else 0)
    requires Count(IsAnnouncement, trace[1..])
             <= after + Count(IsPlace, trace[1..]) + Times(n, Count(IsRelayCrash, trace[1..]))
    ensures Count(IsAnnouncement, trace) <= before + Count(IsPlace, trace) + Times(n, Count(IsRelayCrash, trace))
  {
    assert IsRelayCrash(trace[0]) ==> Count(IsRelayCrash, trace) == 1 + Count(IsRelayCrash, trace[1..]);
  }

  /** So what a run asks of the services depends on the orders placed and on what fails. */
  lemma DisturbancesAreDemanded(s: State, trace: seq<Action>)
    requires Causal(s) && s.books.rows == map[] && Fulfilment.Valid(s, trace)
    ensures Count(IsDisturbance, trace) <= Demand(trace)
  {
    assert s.books.outbox.Keys == {};
    AnnouncementsAreBounded(s, trace, Count(IsPlace, trace));
    DisturbancesSplit(trace);
  }

  /** The system is never stuck: while it is not drained some service, or the
      relay, can act. */
  lemma NeverStuck(s: State)
    requires Regular(s)
    requires |s.books.outbox| > 0 || s.seen < |s.log| || exists d :: d in s.deliveries && d.Live()
    ensures || Enabled(s, Notify)
            || (exists i: nat :: Enabled(s, Advance(i, Ok)))
            || (exists id :: Enabled(s, Relay(id, Ok)) || Enabled(s, Remove(id)))
  {
    if d :| d in s.deliveries && d.Live() {
      var i: nat :| i < |s.deliveries| && s.deliveries[i] == d;
      assert Enabled(s, Advance(i, Ok));
    } else if |s.books.outbox| > 0 {
      assert s.books.outbox != map[];
      var id :| id in s.books.outbox;
      assert Enabled(s, Relay(id, Ok)) || Enabled(s, Remove(id));
    }
  }
}

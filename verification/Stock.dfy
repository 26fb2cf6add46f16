/** Stock is conserved by any interleaving of reservations. */
module Stock {
  import opened Causality
  import opened Collections
  import opened Contracts
  import opened Fulfilment
  import opened Messaging
  import Inventory

  /** What a handler has taken off the shelf and nobody was promised. */
  ghost function TakenBy(sku: Sku): Delivery -> int {
    (d: Delivery) => if InHand(d) && d.msg.body.sku == sku then d.msg.body.quantity else 0
  }

  /** What a published reservation promises. */
  ghost function PromisedBy(sku: Sku): Message -> int {
    (m: Message) => if m.body.StockReserved? && m.body.sku == sku then m.body.quantity else 0
  }

  ghost function Taken(s: State, sku: Sku): int {
    Sum(TakenBy(sku), s.deliveries)
  }

  ghost function Promised(s: State, sku: Sku): int {
    Sum(PromisedBy(sku), s.log)
  }

  /** What was supplied is on the shelf, or taken, or promised, or was lost in the hands
      of a handler that died. Stock that is put back although it was promised counts twice. */
  ghost predicate Conserved(s: State, sku: Sku) {
    Get(s.shelf.stock, sku) + Taken(s, sku) + Promised(s, sku) + Get(s.mislaid, sku)
      == Get(s.supplied, sku) + Get(s.phantom, sku)
  }

  lemma PublishCounts(s: State, sent: seq<Message>, sku: Sku)
    requires |sent| <= 1
    ensures Promised(Publish(s, sent), sku) == Promised(s, sku) + if sent != [] then PromisedBy(sku)(sent[0]) else 0
    ensures Taken(Publish(s, sent), sku) == Taken(s, sku)
  {
    if sent != [] {
      assert s.log + sent == s.log + [sent[0]];
      SumSnoc(PromisedBy(sku), s.log, sent[0]);
      RoutedTakesNothing(s, sent[0], sku);
    }
  }

  lemma RoutedTakesNothing(s: State, m: Message, sku: Sku)
    ensures Sum(TakenBy(sku), s.deliveries + Routed(s, m)) == Taken(s, sku)
  {
    if WorkQueue(m.body).To? {
      SumSnoc(TakenBy(sku), s.deliveries, Routed(s, m)[0]);
    } else {
      assert s.deliveries + [] == s.deliveries;
    }
  }

  lemma MoveConserves(s: State, s1: State, i: nat, sent: seq<Message>, sku: Sku)
    requires Conserved(s, sku) && Framed(s, s1, i) && |sent| <= 1
    requires Get(s1.shelf.stock, sku) + TakenBy(sku)(s1.deliveries[i]) + (if sent != [] then PromisedBy(sku)(sent[0]) else 0)
             - Get(s1.phantom, sku) - Get(s1.supplied, sku) + Get(s1.mislaid, sku)
             == Get(s.shelf.stock, sku) + TakenBy(sku)(s.deliveries[i]) - Get(s.phantom, sku) - Get(s.supplied, sku)
                + Get(s.mislaid, sku)
    ensures Conserved(Publish(s1, sent), sku)
  {
    SumUpdate(TakenBy(sku), s.deliveries, i, s1.deliveries[i]);
    PublishCounts(s1, sent, sku);
  }

  lemma AdvanceConserves(s: State, i: nat, r: Reply, sku: Sku)
    requires Conserved(s, sku) && Enabled(s, Advance(i, r))
    ensures Conserved(Advanced(s, i, r), sku)
  {
    var e := s.deliveries[i].msg.body;
    if e.OrderPlaced? { ChargeConserves(s, i, r, sku); }
    else if e.PaymentCaptured? { ReserveConserves(s, i, r, sku); }
    else { DispatchConserves(s, i, r, sku); }
  }

  lemma ChargeConserves(s: State, i: nat, r: Reply, sku: Sku)
    requires Conserved(s, sku) && Enabled(s, Advance(i, r)) && s.deliveries[i].msg.body.OrderPlaced?
    ensures Conserved(Publish(Charging(s, i, r), Sent(s, i, r)), sku)
  {
    MoveConserves(s, Charging(s, i, r), i, Sent(s, i, r), sku);
  }

  lemma DispatchConserves(s: State, i: nat, r: Reply, sku: Sku)
    requires Conserved(s, sku) && Enabled(s, Advance(i, r)) && s.deliveries[i].msg.body.StockReserved?
    ensures Conserved(Publish(Dispatching(s, i, r), Sent(s, i, r)), sku)
  {
    MoveConserves(s, Dispatching(s, i, r), i, Sent(s, i, r), sku);
  }

  lemma ReserveConserves(s: State, i: nat, r: Reply, sku: Sku)
    requires Conserved(s, sku) && Enabled(s, Advance(i, r)) && s.deliveries[i].msg.body.PaymentCaptured?
    ensures Conserved(Publish(Reserving(s, i, r), Sent(s, i, r)), sku)
  {
    ReserveBalances(s, i, r, sku);
    MoveConserves(s, Reserving(s, i, r), i, Sent(s, i, r), sku);
  }

  /** What one action of `reserve` moves between the shelf, its hand and its promise. */
  lemma ReserveBalances(s: State, i: nat, r: Reply, sku: Sku)
    requires Enabled(s, Advance(i, r)) && s.deliveries[i].msg.body.PaymentCaptured?
    ensures var s1, sent := Reserving(s, i, r), Sent(s, i, r);
            && s1.supplied == s.supplied && s1.mislaid == s.mislaid
            && Get(s1.shelf.stock, sku) + TakenBy(sku)(s1.deliveries[i]) + (if sent != [] then PromisedBy(sku)(sent[0]) else 0)
               - Get(s1.phantom, sku)
               == Get(s.shelf.stock, sku) + TakenBy(sku)(s.deliveries[i]) - Get(s.phantom, sku)
  {
    var d, turn := s.deliveries[i], Inventory.Step(s.shelf, s.deliveries[i].msg, s.deliveries[i].phase, r);
    ShelfBalances(s.shelf, d, r, sku);
    assert Reserving(s, i, r).deliveries[i] == Acknowledged(d, turn.phase);
    assert InHand(Acknowledged(d, turn.phase)) == (turn.phase in {Holding, Failing});
  }

  /** The stock that is on the shelf, in hand and promised by one action. */
  lemma ShelfBalances(t: Inventory.Shelf, d: Delivery, r: Reply, sku: Sku)
    requires d.msg.body.PaymentCaptured? && Inventory.Works(d.phase)
    ensures var turn := Inventory.Step(t, d.msg, d.phase, r);
            var mine := if d.msg.body.sku == sku then d.msg.body.quantity else 0;
            Get(turn.state.stock, sku) + (if turn.phase in {Holding, Failing} then mine else 0)
              + (if turn.sent != [] && turn.sent[0].body.StockReserved? then mine else 0)
            == Get(t.stock, sku) + (if d.phase in {Holding, Failing} then mine else 0) + (if d.phase == Unsure then mine else 0)
  {
  }

  lemma RelayConserves(s: State, id: OrderId, r: Reply, sku: Sku)
    requires Conserved(s, sku) && Enabled(s, Relay(id, r)) && s.books.outbox[id].body.OrderPlaced?
    ensures Conserved(Relayed(s, id, r), sku)
  {
    if r != Failed {
      var m := s.books.outbox[id];
      PublishCounts(s, [m], sku);
      assert Relayed(s, id, r).log == Publish(s, [m]).log && Relayed(s, id, r).deliveries == Publish(s, [m]).deliveries;
    }
  }

  /** What a handler had taken is lost with it, and nothing else is. */
  lemma CrashMislays(s: State, i: nat, spends: bool, sku: Sku)
    requires Enabled(s, Crash(i, spends))
    ensures var s' := Crashed(s, i, spends);
            && s'.supplied == s.supplied && s'.phantom == s.phantom
            && Get(s'.mislaid, sku) == Get(s.mislaid, sku) + TakenBy(sku)(s.deliveries[i])
            && TakenBy(sku)(s'.deliveries[i]) == 0
  {
  }

  lemma CrashConserves(s: State, i: nat, spends: bool, sku: Sku)
    requires Conserved(s, sku) && Enabled(s, Crash(i, spends))
    ensures Conserved(Crashed(s, i, spends), sku)
  {
    var s' := Crashed(s, i, spends);
    CrashMislays(s, i, spends, sku);
    assert Framed(s, s', i);
    SumUpdate(TakenBy(sku), s.deliveries, i, s'.deliveries[i]);
  }

  lemma RedeliverConserves(s: State, i: nat, left: nat, sku: Sku)
    requires Conserved(s, sku) && Enabled(s, Redeliver(i, left))
    ensures Conserved(Redelivered(s, i, left), sku)
  {
    SumSnoc(TakenBy(sku), s.deliveries, Copy(s.deliveries[i], left));
  }

  lemma ConservedStep(s: State, a: Action, sku: Sku)
    requires Causal(s) && Conserved(s, sku) && Enabled(s, a)
    ensures Conserved(Step(s, a), sku)
  {
    match a
    case Advance(i, r) => AdvanceConserves(s, i, r, sku);
    case Relay(id, r) => RelayConserves(s, id, r, sku);
    case Crash(i, spends) => CrashConserves(s, i, spends, sku);
    case Redeliver(i, left) => RedeliverConserves(s, i, left, sku);
    case _ => QuietConserves(s, a, sku);
  }

  lemma QuietConserves(s: State, a: Action, sku: Sku)
    requires Conserved(s, sku) && Enabled(s, a)
    requires !(a.Advance? || a.Relay? || a.Crash? || a.Redeliver?)
    ensures Conserved(Step(s, a), sku)
  {
  }

  /** The gateway does not check quantities, nor does inventory: an action that brings
      none below `least`. */
  predicate AtLeast(a: Action, least: int) {
    match a
    case Place(o) => o.quantity >= least
    case Restock(_, quantity) => quantity >= least
    case _ => true
  }

  predicate NonNegative(s: State) {
    && (forall sku :: sku in s.shelf.stock ==> s.shelf.stock[sku] >= 0)
    && (forall id :: id in s.books.rows ==> s.books.rows[id].quantity >= 0)
    && (forall sku :: sku in s.mislaid ==> s.mislaid[sku] >= 0)
  }

  lemma NonNegativeStep(s: State, a: Action)
    requires Causal(s) && NonNegative(s) && Enabled(s, a) && AtLeast(a, 0)
    ensures NonNegative(Step(s, a))
  {
    match a
    case Advance(i, r) =>
      InLog(s, s.deliveries[i].msg);
      AdvanceNonNegative(s, i, r);
    case Crash(i, spends) =>
      InLog(s, s.deliveries[i].msg);
      CrashNonNegative(s, i, spends);
    case _ => QuietNonNegative(s, a);
  }

  lemma CrashNonNegative(s: State, i: nat, spends: bool)
    requires NonNegative(s) && Enabled(s, Crash(i, spends)) && Caused(s.books.rows, s.log, s.deliveries[i].msg)
    ensures NonNegative(Crashed(s, i, spends))
  {
  }

  lemma QuietNonNegative(s: State, a: Action)
    requires NonNegative(s) && Enabled(s, a) && AtLeast(a, 0) && !a.Advance? && !a.Crash?
    ensures NonNegative(Step(s, a))
  {
  }

  lemma ReserveNonNegative(t: Inventory.Shelf, m: Message, p: Phase, r: Reply)
    requires m.body.PaymentCaptured? && Inventory.Works(p) && m.body.quantity >= 0
    requires forall sku :: sku in t.stock ==> t.stock[sku] >= 0
    ensures var t' := Inventory.Step(t, m, p, r).state;
            forall sku :: sku in t'.stock ==> t'.stock[sku] >= 0
  {
  }

  lemma AdvanceNonNegative(s: State, i: nat, r: Reply)
    requires NonNegative(s) && Enabled(s, Advance(i, r))
    requires Caused(s.books.rows, s.log, s.deliveries[i].msg)
    ensures NonNegative(Advanced(s, i, r))
  {
    HandledStock(s, i, r);
    HandlerNonNegative(s, Handled(s, i, r), i, Sent(s, i, r));
  }

  /** Only `reserve` changes the shelf, and it takes no more than there is. */
  lemma HandledStock(s: State, i: nat, r: Reply)
    requires NonNegative(s) && Enabled(s, Advance(i, r))
    requires Caused(s.books.rows, s.log, s.deliveries[i].msg)
    ensures var s1 := Handled(s, i, r);
            && Framed(s, s1, i) && s1.mislaid == s.mislaid
            && forall sku :: sku in s1.shelf.stock ==> s1.shelf.stock[sku] >= 0
  {
    var d := s.deliveries[i];
    if d.msg.body.PaymentCaptured? {
      ReserveNonNegative(s.shelf, d.msg, d.phase, r);
    }
  }

  lemma HandlerNonNegative(s: State, s1: State, i: nat, sent: seq<Message>)
    requires NonNegative(s) && Framed(s, s1, i) && s1.mislaid == s.mislaid && |sent| <= 1
    requires forall sku :: sku in s1.shelf.stock ==> s1.shelf.stock[sku] >= 0
    ensures NonNegative(Publish(s1, sent))
  {
  }

  /** What is taken is never negative, so what is promised was supplied. */
  lemma TakenNonNegative(s: State, sku: Sku)
    requires Causal(s) && NonNegative(s)
    ensures Taken(s, sku) >= 0
  {
    forall d | d in s.deliveries ensures TakenBy(sku)(d) >= 0 {
      InLog(s, d.msg);
    }
    SumNonNegative(TakenBy(sku), s.deliveries);
  }
}

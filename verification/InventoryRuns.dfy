/** Particular runs of inventory: what negative quantities, misreported reservations and
    redelivered dead letters do. */
module InventoryRuns {
  import opened Causality
  import opened Collections
  import opened Contracts
  import opened Fulfilment
  import opened FulfilmentRuns
  import opened FulfilmentTheorems
  import opened Messaging
  import opened Stock
  import opened Warehouse
  import Claims
  import Inventory
  import Payments

  /** A state of some run in which no quantity is below `least`. */
  ghost predicate Within(s: State, least: int) {
    exists failures: nat, ship: nat, trace: seq<Action> :: RunTo(failures, ship, trace, s) && AllAtLeast(trace, least)
  }

  lemma IsReachable(s: State, least: int)
    requires Within(s, least)
    ensures Reachable(s)
  {
  }

  lemma Next(s: State, a: Action, least: int) returns (s': State)
    requires Within(s, least) && Enabled(s, a) && AtLeast(a, least)
    ensures Within(s', least) && s' == Step(s, a)
  {
    var failures: nat, ship: nat, trace :| RunTo(failures, ship, trace, s) && AllAtLeast(trace, least);
    RunSnoc(Init(failures, ship), trace, a);
    s' := Run(Init(failures, ship), trace + [a]);
    assert RunTo(failures, ship, trace + [a], s');
  }

  /** A system whose first warehouse calls fail, and whose shelf has some of one SKU. */
  lemma OnTheShelf(sku: Sku, quantity: int, failures: nat, least: int) returns (s: State)
    requires quantity >= least
    ensures Within(s, least) && s.shelf.stock == map[sku := quantity] && s.shelf.failures == failures && s.shelf.calls == 0
    ensures s.books.rows == map[] && s.books.confirmed == {} && s.log == [] && s.till.claims == map[] && s.deliveries == []
    ensures s.faults == multiset{} && Get(s.supplied, sku) == quantity && s.tally == Tally(0, 0, 0, 0, multiset{})
  {
    var s0 := Init(failures, 1);
    assert RunTo(failures, 1, [], s0) && AllAtLeast([], least);
    s := Next(s0, Restock(sku, quantity), least);
  }

  /** An order nobody has heard of yet. */
  predicate Unheard(s: State, o: Order) {
    && o.id !in s.books.rows && o.id !in s.books.confirmed && PlacedOf(o) !in s.log
    && Claims.Free(s.till.claims, o.id) && o.total <= Payments.AUTOMATIC_LIMIT
  }

  /** What inventory, and what the theorems count at it, does not see of a step elsewhere. */
  predicate SameAtInventory(s: State, s': State) {
    s'.shelf == s.shelf && s'.tally == s.tally && s'.supplied == s.supplied && s'.faults == s.faults
  }

  /** What has happened once an order is placed, announced, claimed and captured. */
  predicate Captured(s: State, s': State, o: Order) {
    && s'.log == s.log + [PlacedOf(o)] + [CapturedOf(o)]
    && s'.deliveries == s.deliveries + [Delivery(PlacedOf(o), Payments.ATTEMPTS, Published)]
                                     + [Delivery(CapturedOf(o), Inventory.ATTEMPTS, Waiting)]
    && s'.books.rows == s.books.rows[o.id := o] && s'.books.confirmed == s.books.confirmed + {o.id}
    && s'.till.claims == s.till.claims[o.id := Claims.Held]
    && SameAtInventory(s, s')
  }

  /** An order is placed and announced. */
  lemma PlaceAndRelay(s: State, o: Order, least: int) returns (s': State)
    requires Within(s, least) && Unheard(s, o) && o.quantity >= least
    ensures Within(s', least) && s'.log == s.log + [PlacedOf(o)] && s'.till == s.till && SameAtInventory(s, s')
    ensures s'.deliveries == s.deliveries + [Delivery(PlacedOf(o), Payments.ATTEMPTS, Waiting)]
    ensures s'.books.rows == s.books.rows[o.id := o] && s'.books.confirmed == s.books.confirmed + {o.id}
  {
    var s1 := Next(s, Place(o), least);
    assert s1.books.outbox[o.id] == PlacedOf(o);
    s' := Next(s1, Relay(o.id, Ok), least);
  }

  /** The last delivery gets the claim. */
  lemma ClaimLast(s: State, before: seq<Delivery>, o: Order, least: int) returns (s': State)
    requires Within(s, least) && s.deliveries == before + [Delivery(PlacedOf(o), Payments.ATTEMPTS, Waiting)]
    requires Claims.Free(s.till.claims, o.id)
    ensures Within(s', least) && s'.books == s.books && s'.log == s.log && SameAtInventory(s, s')
    ensures s'.till.claims == s.till.claims[o.id := Claims.Held]
    ensures s'.deliveries == before + [Delivery(PlacedOf(o), Payments.ATTEMPTS, Holding)]
  {
    s' := Next(s, Advance(|before|, Ok), least);
  }

  /** And publishes the capture. */
  lemma CaptureLast(s: State, before: seq<Delivery>, o: Order, least: int) returns (s': State)
    requires Within(s, least) && s.deliveries == before + [Delivery(PlacedOf(o), Payments.ATTEMPTS, Holding)]
    requires o.total <= Payments.AUTOMATIC_LIMIT
    ensures Within(s', least) && s'.books == s.books && SameAtInventory(s, s')
    ensures s'.till.claims == s.till.claims && s'.log == s.log + [CapturedOf(o)]
    ensures s'.deliveries == before + [Delivery(PlacedOf(o), Payments.ATTEMPTS, Published)]
                                    + [Delivery(CapturedOf(o), Inventory.ATTEMPTS, Waiting)]
  {
    s' := Next(s, Advance(|before|, Ok), least);
    CaptureStep(s, before, o);
  }

  lemma CaptureStep(s: State, before: seq<Delivery>, o: Order)
    requires s.deliveries == before + [Delivery(PlacedOf(o), Payments.ATTEMPTS, Holding)] && o.total <= Payments.AUTOMATIC_LIMIT
    ensures var s' := Step(s, Advance(|before|, Ok));
            && s'.books == s.books && SameAtInventory(s, s') && s'.till.claims == s.till.claims
            && s'.log == s.log + [CapturedOf(o)]
            && s'.deliveries == before + [Delivery(PlacedOf(o), Payments.ATTEMPTS, Published)]
                                       + [Delivery(CapturedOf(o), Inventory.ATTEMPTS, Waiting)]
  {
    var charged := Charging(s, |before|, Ok);
    assert charged.deliveries == before + [Delivery(PlacedOf(o), Payments.ATTEMPTS, Published)];
    assert Sent(s, |before|, Ok) == [CapturedOf(o)];
  }

  lemma Capture(s: State, o: Order, least: int) returns (s': State)
    requires Within(s, least) && Unheard(s, o) && o.quantity >= least
    ensures Within(s', least) && Captured(s, s', o)
  {
    var s1 := PlaceAndRelay(s, o, least);
    var s2 := ClaimLast(s1, s.deliveries, o, least);
    s' := CaptureLast(s2, s.deliveries, o, least);
  }

  /** One action of `reserve`, in such a run. */
  lemma Reserve(s: State, i: nat, r: Reply, least: int) returns (s': State)
    requires Within(s, least) && i < |s.deliveries| && s.deliveries[i].msg.body.PaymentCaptured? && Inventory.Works(s.deliveries[i].phase)
    ensures Within(s', least) && s'.books == s.books && s'.supplied == s.supplied
    ensures var d := s.deliveries[i];
            var turn := Inventory.Step(s.shelf, d.msg, d.phase, r);
            && s'.shelf == turn.state && s'.log == s.log + turn.sent
            && s'.tally == Tried(s.tally, d, turn.phase) && s'.faults == s.faults + ReserveFaults(d, r)
            && s'.deliveries == s.deliveries[i := Acknowledged(d, turn.phase)]
                                + if turn.sent == [] then [] else Routed(s, turn.sent[0])
  {
    s' := Next(s, Advance(i, r), least);
    var turn := Inventory.Step(s.shelf, s.deliveries[i].msg, s.deliveries[i].phase, r);
    assert turn.sent == [] ==> s.log + turn.sent == s.log && s'.deliveries + [] == s'.deliveries;
  }

  /** The warehouse answers. */
  lemma Call(s: State, i: nat, least: int) returns (s': State)
    requires Within(s, least) && i < |s.deliveries| && s.deliveries[i].msg.body.PaymentCaptured? && s.deliveries[i].phase == Waiting
    requires s.shelf.failures == 0
    ensures Within(s', least) && s'.deliveries == s.deliveries[i := s.deliveries[i].(phase := Answered)]
    ensures s'.faults == s.faults && s'.books == s.books && s'.log == s.log && s'.supplied == s.supplied
    ensures s'.shelf.failures == 0 && s'.shelf.stock == s.shelf.stock
  {
    s' := Reserve(s, i, Ok, least);
  }

  /** The warehouse answers, and the stock is taken. */
  lemma Take(s: State, i: nat, least: int) returns (s': State)
    requires Within(s, least) && i < |s.deliveries| && s.deliveries[i].msg.body.PaymentCaptured? && s.deliveries[i].phase == Waiting
    requires s.shelf.failures == 0
    requires var e := s.deliveries[i].msg.body; e.sku in s.shelf.stock && e.quantity <= s.shelf.stock[e.sku]
    ensures Within(s', least) && s'.deliveries == s.deliveries[i := s.deliveries[i].(phase := Holding)]
    ensures s'.faults == s.faults && s'.books == s.books && s'.log == s.log && s'.supplied == s.supplied
    ensures var e := s.deliveries[i].msg.body;
            s'.shelf.failures == 0 && s'.shelf.stock == s.shelf.stock[e.sku := s.shelf.stock[e.sku] - e.quantity]
  {
    var s1 := Call(s, i, least);
    s' := Reserve(s1, i, Ok, least);
  }

  /** The publish fails, and the stock is put back. */
  lemma PutBack(s: State, i: nat, least: int) returns (s': State)
    requires Within(s, least) && i < |s.deliveries| && s.deliveries[i].msg.body.PaymentCaptured? && s.deliveries[i].phase == Holding
    ensures Within(s', least) && s'.faults == s.faults + multiset{PublishFailed} && s'.books == s.books
    ensures var e := s.deliveries[i].msg.body; s'.shelf.stock == Add(s.shelf.stock, e.sku, e.quantity)
  {
    var s1 := Reserve(s, i, Failed, least);
    s' := Reserve(s1, i, Ok, least);
  }

  lemma BothCaptured(s0: State, s1: State, s2: State, a: Order, b: Order)
    requires Captured(s0, s1, a) && Captured(s1, s2, b) && s0.deliveries == [] && s0.books.rows == map[]
    ensures s2.books.rows == map[a.id := a, b.id := b]
    ensures |s2.deliveries| == 4 && s2.deliveries[1] == Delivery(CapturedOf(a), Inventory.ATTEMPTS, Waiting)
    ensures s2.deliveries[3] == Delivery(CapturedOf(b), Inventory.ATTEMPTS, Waiting)
  {
    assert |s1.deliveries| == 2 && s1.deliveries[1] == Delivery(CapturedOf(a), Inventory.ATTEMPTS, Waiting);
  }

  lemma StillUnheard(s: State, s': State, a: Order, b: Order)
    requires Captured(s, s', a) && Unheard(s, b) && a.id != b.id
    ensures Unheard(s', b)
  {
    assert PlacedOf(a) != PlacedOf(b) && CapturedOf(a) != PlacedOf(b);
  }

  /** Two captured orders of a SKU of which there is none. */
  lemma TwoCaptured(a: Order, b: Order, least: int) returns (s: State)
    requires a.id != b.id && a.sku == b.sku && a.total <= Payments.AUTOMATIC_LIMIT && b.total <= Payments.AUTOMATIC_LIMIT
    requires a.quantity >= least && b.quantity >= least && 0 >= least
    ensures Within(s, least) && s.books.rows == map[a.id := a, b.id := b] && s.faults == multiset{}
    ensures s.shelf.stock == map[a.sku := 0] && s.shelf.failures == 0
    ensures |s.deliveries| == 4 && s.deliveries[1] == Delivery(CapturedOf(a), Inventory.ATTEMPTS, Waiting)
    ensures s.deliveries[3] == Delivery(CapturedOf(b), Inventory.ATTEMPTS, Waiting)
  {
    var s0 := OnTheShelf(a.sku, 0, 0, least);
    var s1 := Capture(s0, a, least);
    StillUnheard(s0, s1, a, b);
    s := Capture(s1, b, least);
    BothCaptured(s0, s1, s, a, b);
  }

  /** The gateway takes any quantity. For every negative one, and every SKU, there is a
      run of two orders and one failed publish that leaves that quantity on the shelf:
      the put-back takes away stock that another handler has meanwhile used. */
  lemma NegativeQuantityBreaksTheShelf(quantity: int, sku: Sku) returns (s: State)
    requires quantity < 0
    ensures Within(s, quantity) && Reachable(s) && Get(s.shelf.stock, sku) == quantity && s.faults == multiset{PublishFailed}
    ensures s.books.rows == map["A" := Order("A", "", sku, quantity, 0.0), "B" := Order("B", "", sku, -quantity, 0.0)]
  {
    var s0 := TwoCaptured(Order("A", "", sku, quantity, 0.0), Order("B", "", sku, -quantity, 0.0), quantity);
    var s1 := Take(s0, 1, quantity);
    var s2 := Take(s1, 3, quantity);
    s := PutBack(s2, 1, quantity);
    IsReachable(s, quantity);
  }

  /** Exactly which quantities are safe to allow: the shelf can go below zero if and only
      if the least quantity that may be ordered or stocked is negative. */
  lemma ShelfBreaksExactlyBelowZero(least: int, sku: Sku)
    ensures (exists s :: Within(s, least) && Get(s.shelf.stock, sku) < 0) <==> least < 0
  {
    if s :| Within(s, least) && Get(s.shelf.stock, sku) < 0 && least >= 0 {
      var failures: nat, ship: nat, trace :| RunTo(failures, ship, trace, s) && AllAtLeast(trace, least);
      assert AllAtLeast(trace, 0);
      NoOverselling(failures, ship, trace, sku);
      assert false;
    }
    if least < 0 {
      var s := NegativeQuantityBreaksTheShelf(least, sku);
    }
  }

  /** One captured order of a SKU of which there is some. */
  lemma OneCaptured(o: Order, stock: int, failures: nat) returns (s: State)
    requires stock >= 0 && o.quantity >= 0 && o.total <= Payments.AUTOMATIC_LIMIT
    ensures Within(s, 0) && s.books.rows == map[o.id := o] && s.log == [PlacedOf(o)] + [CapturedOf(o)]
    ensures s.deliveries == [Delivery(PlacedOf(o), Payments.ATTEMPTS, Published), Delivery(CapturedOf(o), Inventory.ATTEMPTS, Waiting)]
    ensures s.shelf.stock == map[o.sku := stock] && s.shelf.failures == failures && s.shelf.calls == 0
    ensures Get(s.supplied, o.sku) == stock && s.faults == multiset{} && s.tally == Tally(0, 0, 0, 0, multiset{})
  {
    var s0 := OnTheShelf(o.sku, stock, failures, 0);
    s := Capture(s0, o, 0);
    assert s.log == [PlacedOf(o)] + [CapturedOf(o)];
  }

  /** The stock is taken, and its reservation is published and reported. */
  lemma TakeAndReserve(s: State, i: nat) returns (s': State)
    requires Within(s, 0) && i < |s.deliveries| && s.deliveries[i].msg.body.PaymentCaptured? && s.deliveries[i].phase == Waiting
    requires s.shelf.failures == 0
    requires var e := s.deliveries[i].msg.body; e.sku in s.shelf.stock && e.quantity <= s.shelf.stock[e.sku]
    ensures Within(s', 0) && s'.log == s.log + [Inventory.ReservedMessage(s.deliveries[i].msg)]
    ensures s'.books == s.books && s'.supplied == s.supplied
  {
    var s1 := Take(s, i, 0);
    s' := Reserve(s1, i, Ok, 0);
  }

  /** The stock is taken; its reservation takes effect and is reported as failed. */
  lemma TakeAndPutBack(s: State, i: nat) returns (s': State)
    requires Within(s, 0) && i < |s.deliveries| && s.deliveries[i].msg.body.PaymentCaptured? && s.deliveries[i].phase == Waiting
    requires s.shelf.failures == 0 && s.deliveries[i].left > 1
    requires var e := s.deliveries[i].msg.body; e.sku in s.shelf.stock && e.quantity <= s.shelf.stock[e.sku]
    ensures Within(s', 0) && s'.log == s.log + [Inventory.ReservedMessage(s.deliveries[i].msg)]
    ensures s'.books == s.books && s'.supplied == s.supplied && s'.shelf.failures == 0 && s'.shelf.stock == s.shelf.stock
    ensures i < |s'.deliveries| && s'.deliveries[i] == Delivery(s.deliveries[i].msg, s.deliveries[i].left - 1, Waiting)
  {
    var s1 := Take(s, i, 0);
    var e := s.deliveries[i].msg.body;
    assert s1.deliveries[i] == s.deliveries[i].(phase := Holding);
    s' := PutBackUnsure(s1, i);
    PutBackWhole(s.shelf.stock, e.sku, e.quantity);
  }

  lemma PutBackWhole(stock: map<Sku, int>, sku: Sku, quantity: int)
    requires sku in stock
    ensures Add(stock[sku := stock[sku] - quantity], sku, quantity) == stock
  {
  }

  /** Why `NoOverselling` counts what is put back although it was promised: one misreported
      publish, and the same stock is reserved twice. */
  lemma MisreportedReservationPromisesTwice(quantity: nat, sku: Sku) returns (s: State)
    ensures Within(s, 0) && Get(s.supplied, sku) == quantity && Promised(s, sku) == 2 * quantity
    ensures s.books.rows == map["A" := Order("A", "", sku, quantity, 0.0)]
  {
    var o := Order("A", "", sku, quantity, 0.0);
    var s1 := OneCaptured(o, quantity, 0);
    var s2 := TakeAndPutBack(s1, 1);
    s := TakeAndReserve(s2, 1);
    PromisedAgain(o);
  }

  lemma PromisedAgain(o: Order)
    ensures Sum(PromisedBy(o.sku), [PlacedOf(o)] + [CapturedOf(o)] + [ReservedOf(o)] + [ReservedOf(o)]) == 2 * o.quantity
  {
    var f := PromisedBy(o.sku);
    SumOne(f, PlacedOf(o));
    SumSnoc(f, [PlacedOf(o)], CapturedOf(o));
    SumSnoc(f, [PlacedOf(o)] + [CapturedOf(o)], ReservedOf(o));
    SumSnoc(f, [PlacedOf(o)] + [CapturedOf(o)] + [ReservedOf(o)], ReservedOf(o));
  }

  /** The publish takes effect and is reported as failed, and the stock is put back. */
  lemma PutBackUnsure(s: State, i: nat) returns (s': State)
    requires Within(s, 0) && i < |s.deliveries| && s.deliveries[i].msg.body.PaymentCaptured?
    requires s.deliveries[i].phase == Holding && s.deliveries[i].left > 1
    ensures Within(s', 0) && s'.books == s.books && s'.supplied == s.supplied && s'.shelf.failures == s.shelf.failures
    ensures s'.log == s.log + [Inventory.ReservedMessage(s.deliveries[i].msg)]
    ensures i < |s'.deliveries| && s'.deliveries[i] == Delivery(s.deliveries[i].msg, s.deliveries[i].left - 1, Waiting)
    ensures var e := s.deliveries[i].msg.body; s'.shelf.stock == Add(s.shelf.stock, e.sku, e.quantity)
  {
    var s1 := Reserve(s, i, Ambiguous, 0);
    assert i < |s1.deliveries| && s1.deliveries[i] == s.deliveries[i].(phase := Unsure);
    s' := Reserve(s1, i, Ok, 0);
    assert s'.log == s1.log;
  }

  /** The warehouse does not answer a call. */
  lemma FailCall(s: State, i: nat) returns (s': State)
    requires Within(s, 0) && i < |s.deliveries| && s.deliveries[i].msg.body.PaymentCaptured? && s.deliveries[i].phase == Waiting
    requires s.shelf.calls < s.shelf.failures
    ensures Within(s', 0) && s'.shelf == s.shelf.(calls := s.shelf.calls + 1) && s'.faults == s.faults
    ensures s'.tally == Tried(s.tally, s.deliveries[i], Settled(Retry))
    ensures s'.deliveries == s.deliveries[i := Acknowledged(s.deliveries[i], Settled(Retry))]
  {
    s' := Reserve(s, i, Ok, 0);
  }

  /** Four failures kill an order. */
  lemma FourFailures(o: Order, failures: nat) returns (s: State)
    requires failures >= 4 && o.total <= Payments.AUTOMATIC_LIMIT && o.quantity >= 0
    ensures Within(s, 0) && s.shelf.calls == 4 && s.shelf.failures == failures && s.faults == multiset{}
    ensures s.deliveries == [Delivery(PlacedOf(o), Payments.ATTEMPTS, Published), Delivery(CapturedOf(o), 0, Dead)]
    ensures s.tally.copied == s.tally.killed == 0
  {
    var s1 := OneCaptured(o, 0, failures);
    var s2 := FailCall(s1, 1);
    var s3 := FailCall(s2, 1);
    var s4 := FailCall(s3, 1);
    s := FailCall(s4, 1);
  }

  /** Why dead letters are counted by order: a dead letter whose acknowledgement is lost
      comes back with its attempts spent, and one more failure files it again. */
  lemma FifthFailureFilesAgain(o: Order) returns (s: State)
    requires o.total <= Payments.AUTOMATIC_LIMIT && o.quantity >= 0
    ensures Reachable(s) && FailedCalls(s) == 5 && PublishFailed !in s.faults && s.tally.killed == 0
    ensures DeadLetters(s) == 2 && DeadOrders(s) == {o.id}
  {
    var s0 := FourFailures(o, 5);
    var s1 := ComeBack(s0, 1);
    s := FailCall(s1, 2);
    IsReachable(s, 0);
    FiledTwice(s, s0.deliveries[0], s0.deliveries[1]);
  }

  /** A dead letter is delivered once more, on its last attempt. */
  lemma ComeBack(s: State, i: nat) returns (s': State)
    requires Within(s, 0) && i < |s.deliveries| && s.deliveries[i].msg.body.PaymentCaptured? && s.deliveries[i].left == 0
    ensures Within(s', 0) && s'.deliveries == s.deliveries + [Delivery(s.deliveries[i].msg, 1, Waiting)]
    ensures s'.shelf == s.shelf && s'.tally.killed == s.tally.killed && s'.faults[PublishFailed] == s.faults[PublishFailed]
  {
    s' := Next(s, Redeliver(i, 1), 0);
  }

  lemma FiledTwice(s: State, d: Delivery, dead: Delivery)
    requires s.deliveries == [d] + [dead] + [dead] && !IsDeadLetter(d) && IsDeadLetter(dead)
    ensures DeadLetters(s) == 2 && DeadOrders(s) == {dead.msg.body.id}
  {
    SumOne(DeadLetter(), d);
    SumSnoc(DeadLetter(), [d], dead);
    SumSnoc(DeadLetter(), [d] + [dead], dead);
    assert s.deliveries[1] == dead;
    assert forall x :: x in s.deliveries ==> x == d || x == dead;
  }
}

/** What the services count is what they have published. */
module Counters {
  import opened Collections
  import opened Contracts
  import opened Fulfilment
  import opened FulfilmentTheorems
  import opened Messaging

  /** The events that have a counter. */
  datatype Counted = Captured | Declined | Reserved | Rejected | Shipped

  predicate Is(c: Counted, e: Event) {
    match c
    case Captured => e.PaymentCaptured?
    case Declined => e.PaymentDeclined?
    case Reserved => e.StockReserved?
    case Rejected => e.StockUnavailable?
    case Shipped => e.OrderShipped?
  }

  ghost function One(c: Counted): Message -> int {
    (m: Message) => if Is(c, m.body) then 1 else 0
  }

  function Counter(s: State, c: Counted): nat {
    match c
    case Captured => s.till.captures
    case Declined => s.till.declines
    case Reserved => s.shelf.reserved
    case Rejected => s.shelf.rejected
    case Shipped => s.shipped
  }

  /** No publish of the service that keeps the counter was reported as failed and had not. */
  ghost predicate Trusted(s: State, c: Counted) {
    match c
    case Captured => forall id :: OutcomeUnsure(id) !in s.faults
    case Declined => forall id :: OutcomeUnsure(id) !in s.faults
    case Reserved => PublishFailed !in s.faults
    case Rejected => PublishFailed !in s.faults
    case Shipped => forall id :: Duplicated(id) !in s.faults
  }

  ghost predicate Right(s: State, c: Counted) {
    && Counter(s, c) <= Sum(One(c), s.log)
    && (Trusted(s, c) ==> Counter(s, c) == Sum(One(c), s.log))
  }

  lemma PublishCounts(s: State, sent: seq<Message>, c: Counted)
    requires |sent| <= 1
    ensures Sum(One(c), Publish(s, sent).log) == Sum(One(c), s.log) + if sent != [] && Is(c, sent[0].body) then 1 else 0
  {
    if sent != [] {
      assert sent == [sent[0]];
      SumSnoc(One(c), s.log, sent[0]);
    }
  }

  /** A counter moves with a publish, and lags behind one only when it was misreported. */
  lemma ChargeMoves(s: State, i: nat, r: Reply, c: Counted)
    requires Enabled(s, Advance(i, r)) && s.deliveries[i].msg.body.OrderPlaced?
    ensures var s1, sent := Charging(s, i, r), Sent(s, i, r);
            var moved := Counter(s1, c) - Counter(s, c);
            var published := if sent != [] && Is(c, sent[0].body) then 1 else 0;
            moved <= published && (Trusted(s1, c) ==> moved == published && Trusted(s, c))
  {
    assert Framed(s, Charging(s, i, r), i);
    assert ChargeFaults(s.deliveries[i], r) <= Charging(s, i, r).faults;
    if s.deliveries[i].phase == Holding && r == Ambiguous {
      assert OutcomeUnsure(s.deliveries[i].msg.body.order.id) in ChargeFaults(s.deliveries[i], r);
    }
  }

  lemma ReserveMoves(s: State, i: nat, r: Reply, c: Counted)
    requires Enabled(s, Advance(i, r)) && s.deliveries[i].msg.body.PaymentCaptured?
    ensures var s1, sent := Reserving(s, i, r), Sent(s, i, r);
            var moved := Counter(s1, c) - Counter(s, c);
            var published := if sent != [] && Is(c, sent[0].body) then 1 else 0;
            moved <= published && (Trusted(s1, c) ==> moved == published && Trusted(s, c))
  {
    assert Framed(s, Reserving(s, i, r), i);
    assert ReserveFaults(s.deliveries[i], r) <= Reserving(s, i, r).faults;
  }

  lemma DispatchMoves(s: State, i: nat, r: Reply, c: Counted)
    requires Enabled(s, Advance(i, r)) && s.deliveries[i].msg.body.StockReserved?
    ensures var s1, sent := Dispatching(s, i, r), Sent(s, i, r);
            var moved := Counter(s1, c) - Counter(s, c);
            var published := if sent != [] && Is(c, sent[0].body) then 1 else 0;
            moved <= published && (Trusted(s1, c) ==> moved == published && Trusted(s, c))
  {
    assert Framed(s, Dispatching(s, i, r), i);
    if r == Ambiguous {
      assert Duplicated(s.deliveries[i].msg.body.id) in Dispatching(s, i, r).faults;
    }
  }

  /** The service's own action, and then its message in the log. */
  lemma MoveRight(s: State, s1: State, sent: seq<Message>, c: Counted)
    requires Right(s, c) && s1.log == s.log && |sent| <= 1
    requires var moved, published := Counter(s1, c) - Counter(s, c), if sent != [] && Is(c, sent[0].body) then 1 else 0;
             moved <= published && (Trusted(s1, c) ==> moved == published && Trusted(s, c))
    ensures Right(Publish(s1, sent), c)
  {
    PublishCounts(s1, sent, c);
    SameCounter(s1, Publish(s1, sent), c);
  }

  lemma AdvanceRight(s: State, i: nat, r: Reply, c: Counted)
    requires Right(s, c) && Enabled(s, Advance(i, r))
    ensures Right(Advanced(s, i, r), c)
  {
    var e := s.deliveries[i].msg.body;
    if e.OrderPlaced? { ChargeRight(s, i, r, c); }
    else if e.PaymentCaptured? { ReserveRight(s, i, r, c); }
    else { DispatchRight(s, i, r, c); }
  }

  lemma ChargeRight(s: State, i: nat, r: Reply, c: Counted)
    requires Right(s, c) && Enabled(s, Advance(i, r)) && s.deliveries[i].msg.body.OrderPlaced?
    ensures Right(Publish(Charging(s, i, r), Sent(s, i, r)), c)
  {
    ChargeMoves(s, i, r, c);
    MoveRight(s, Charging(s, i, r), Sent(s, i, r), c);
  }

  lemma ReserveRight(s: State, i: nat, r: Reply, c: Counted)
    requires Right(s, c) && Enabled(s, Advance(i, r)) && s.deliveries[i].msg.body.PaymentCaptured?
    ensures Right(Publish(Reserving(s, i, r), Sent(s, i, r)), c)
  {
    ReserveMoves(s, i, r, c);
    MoveRight(s, Reserving(s, i, r), Sent(s, i, r), c);
  }

  lemma DispatchRight(s: State, i: nat, r: Reply, c: Counted)
    requires Right(s, c) && Enabled(s, Advance(i, r)) && s.deliveries[i].msg.body.StockReserved?
    ensures Right(Publish(Dispatching(s, i, r), Sent(s, i, r)), c)
  {
    DispatchMoves(s, i, r, c);
    MoveRight(s, Dispatching(s, i, r), Sent(s, i, r), c);
  }

  lemma SameCounter(s: State, s': State, c: Counted)
    requires s'.till.captures == s.till.captures && s'.till.declines == s.till.declines && s'.shelf.reserved == s.shelf.reserved
    requires s'.shelf.rejected == s.shelf.rejected && s'.shipped == s.shipped && s.faults <= s'.faults
    ensures Counter(s', c) == Counter(s, c) && (Trusted(s', c) ==> Trusted(s, c))
  {
  }

  lemma RightStep(s: State, a: Action, c: Counted)
    requires Inv(s) && Right(s, c) && Enabled(s, a)
    ensures Right(Step(s, a), c)
  {
    match a
    case Advance(i, r) => AdvanceRight(s, i, r, c);
    case Relay(id, r) => RelayRight(s, id, r, c);
    case _ => QuietRight(s, a, c);
  }

  /** The relay announces orders, which no service counts. */
  lemma RelayRight(s: State, id: OrderId, r: Reply, c: Counted)
    requires Inv(s) && Right(s, c) && Enabled(s, Relay(id, r))
    ensures Right(Relayed(s, id, r), c)
  {
    if r != Failed {
      var s' := Relayed(s, id, r);
      AnnouncesOnly(s, id);
      MoveRight(s, s.(books := s'.books, faults := s'.faults), [s.books.outbox[id]], c);
    }
  }

  lemma AnnouncesOnly(s: State, id: OrderId)
    requires Inv(s) && id in s.books.outbox
    ensures s.books.outbox[id].body.OrderPlaced?
  {
  }

  lemma QuietRight(s: State, a: Action, c: Counted)
    requires Right(s, c) && Enabled(s, a) && !a.Advance? && !a.Relay?
    ensures Right(Step(s, a), c)
  {
    SameCounter(s, Step(s, a), c);
  }

  lemma {:induction false} RightRun(s: State, trace: seq<Action>, c: Counted)
    requires Inv(s) && Right(s, c) && Fulfilment.Valid(s, trace)
    ensures Right(Run(s, trace), c)
    decreases |trace|
  {
    if trace != [] {
      RightStep(s, trace[0], c);
      InvStep(s, trace[0]);
      RightRun(Step(s, trace[0]), trace[1..], c);
    }
  }

  /** In every run a service has published at least what it has counted, order by kind of
      event; and exactly that, unless it was told of a publish that it had failed. */
  lemma CountersFollowTheLog(s: State, c: Counted)
    requires Reachable(s)
    ensures Counter(s, c) <= Sum(One(c), s.log)
    ensures Trusted(s, c) ==> Counter(s, c) == Sum(One(c), s.log)
  {
    var failures: nat, ship: nat, trace :| RunTo(failures, ship, trace, s);
    InvInit(failures, ship);
    RightRun(Init(failures, ship), trace, c);
  }
}

/** What holds in every reachable state of the order-fulfilment system. */
module FulfilmentTheorems {
  import opened Causality
  import opened ChargeBound
  import opened Collections
  import opened Contracts
  import opened Draining
  import opened Fulfilment
  import opened Messaging
  import opened NoSilentLoss
  import opened Stock
  import opened Timelines
  import opened Warehouse
  import Claims
  import Notifications
  import Payments
  import Shipping

  /** A state some run ends in. Any number of warehouse calls may be set to fail,
      and shipping has at least one attempt. */
  ghost predicate Reachable(s: State) {
    exists failures: nat, ship: nat, trace: seq<Action> :: RunTo(failures, ship, trace, s)
  }

  ghost predicate RunTo(failures: nat, ship: nat, trace: seq<Action>, s: State) {
    ship >= 1 && Fulfilment.Valid(Init(failures, ship), trace) && Run(Init(failures, ship), trace) == s
  }

  /** Everything the theorems rest on. */
  ghost predicate Inv(s: State) {
    && Causal(s)
    && Lossless(s)
    && Followed(s)
    && Regular(s)
    && Counted(s)
    && (forall id :: Bounded(s, id) && Steady(s, id))
    && (forall sku :: Conserved(s, sku))
  }

  lemma InvInit(failures: nat, ship: nat)
    requires ship >= 1
    ensures Inv(Init(failures, ship))
  {
  }

  lemma InvStep(s: State, a: Action)
    requires Inv(s) && Enabled(s, a)
    ensures Inv(Step(s, a))
  {
    CausalStep(s, a);
    LosslessStep(s, a);
    FollowedStep(s, a);
    RemainingStep(s, a);
    CountedStep(s, a);
    forall id ensures Bounded(Step(s, a), id) && Steady(Step(s, a), id) {
      BoundedStep(s, a, id);
      SteadyStep(s, a, id);
    }
    forall sku ensures Conserved(Step(s, a), sku) {
      ConservedStep(s, a, sku);
    }
  }

  lemma {:induction false} InvRun(s: State, trace: seq<Action>)
    requires Inv(s) && Fulfilment.Valid(s, trace)
    ensures Inv(Run(s, trace))
    decreases |trace|
  {
    if trace != [] {
      InvStep(s, trace[0]);
      InvRun(Step(s, trace[0]), trace[1..]);
    }
  }

  lemma ReachableInv(s: State)
    requires Reachable(s)
    ensures Inv(s)
  {
    var failures: nat, ship: nat, trace :| RunTo(failures, ship, trace, s);
    InvInit(failures, ship);
    InvRun(Init(failures, ship), trace);
  }

  /** However many instances, deliveries, crashes and interleavings: an order is
      decided at most once, plus once for each time its claim expired and once for
      each publish that was reported as failed and was not. */
  lemma OutcomesAreBounded(s: State, id: OrderId)
    requires Reachable(s)
    ensures Outcomes(s, id) <= 1 + s.faults[ClaimExpired(id)] + s.faults[OutcomeUnsure(id)]
  {
    ReachableInv(s);
    assert Bounded(s, id);
    SumNonNegative(HolderOf(id), s.deliveries);
  }

  /** The first outcome of an order is also the last, unless a claim expired
      under a handler or a publish was misreported. */
  lemma ChargedAtMostOnce(s: State, id: OrderId, j: nat, k: nat)
    requires Reachable(s) && ClaimExpired(id) !in s.faults && OutcomeUnsure(id) !in s.faults
    requires j < |s.log| && k < |s.log| && IsOutcome(s.log[j], id) && IsOutcome(s.log[k], id)
    ensures j == k
  {
    OutcomesAreBounded(s, id);
    if j < k {
      TwoOutcomes(s.log, id, j, k);
    } else if k < j {
      TwoOutcomes(s.log, id, k, j);
    }
  }

  lemma {:induction false} TwoOutcomes(log: seq<Message>, id: OrderId, j: nat, k: nat)
    requires j < k < |log| && IsOutcome(log[j], id) && IsOutcome(log[k], id)
    ensures Sum(OutcomeOf(id), log) >= 2
  {
    var n := |log| - 1;
    if k == n {
      SumBounds(OutcomeOf(id), log[..n], j);
    } else {
      TwoOutcomes(log[..n], id, j, k);
    }
  }

  /** Behind every confirmed claim there is a published outcome. */
  lemma ConfirmedIsPublished(s: State, id: OrderId)
    requires Reachable(s) && id in s.till.claims && s.till.claims[id] == Claims.Confirmed
    ensures exists m :: m in s.log && IsOutcome(m, id)
  {
    ReachableInv(s);
    assert Backed(s, id);
  }

  /** No order is ever both captured and declined, however often it is handled. */
  lemma NeverCapturedAndDeclined(s: State, c: Message, d: Message)
    requires Reachable(s) && c in s.log && c.body.PaymentCaptured? && d in s.log && d.body.PaymentDeclined?
    ensures c.body.id != d.body.id
  {
    ReachableInv(s);
    InLog(s, c);
    InLog(s, d);
  }

  /** The transactional outbox, at every point of every run: an order's row is
      committed exactly when its event waits in the outbox or has been published,
      and what is published is the committed order. */
  lemma OutboxAgreesWithOrders(s: State, id: OrderId)
    requires Reachable(s)
    ensures id in s.books.rows <==>
              id in s.books.outbox || exists m :: m in s.log && m.body.OrderPlaced? && m.body.order.id == id
    ensures forall m :: m in s.log && m.body.OrderPlaced? && m.body.order.id == id ==>
              id in s.books.rows && m.body.order == s.books.rows[id]
    ensures id in s.books.outbox ==> id in s.books.rows && s.books.outbox[id].body == OrderPlaced(s.books.rows[id])
    ensures id in s.books.confirmed ==> id in s.books.outbox && s.books.outbox[id] in s.log
  {
    ReachableInv(s);
    forall m | m in s.log && m.body.OrderPlaced? ensures Caused(s.books.rows, s.log, m) {
      InLog(s, m);
    }
    if id in s.books.rows && id !in s.books.outbox {
      var m := PlacedOf(s.books.rows[id]);
      assert m in s.log && m.body.OrderPlaced? && m.body.order.id == id;
    }
  }

  /** What was decided about an order follows from its own total, and says whose it is. */
  lemma OutcomeFollowsTotal(s: State, m: Message)
    requires Reachable(s) && m in s.log && (m.body.PaymentCaptured? || m.body.PaymentDeclined?)
    ensures m.body.id in s.books.rows
    ensures var o := s.books.rows[m.body.id];
            m == if o.total <= 1000.0 then
                   Message(PaymentCaptured(o.id, o.customer, o.sku, o.quantity, o.total), "PaymentCaptured", o.id)
                 else Message(PaymentDeclined(o.id, o.customer, OverTheAutomaticLimit), "PaymentDeclined", o.id)
  {
    ReachableInv(s);
    InLog(s, m);
  }

  /** End to end: whatever shipped was reserved, before that captured, before
      that placed, with the order's own customer, SKU and quantity; its row is
      committed and its total is within the automatic limit. */
  lemma ShippedWasPaidFor(s: State, j: nat)
    requires Reachable(s) && j < |s.log| && s.log[j].body.OrderShipped?
    ensures var e := s.log[j].body;
            && e.id in s.books.rows
            && var o := s.books.rows[e.id];
               && e == OrderShipped(o.id, o.customer, e.tracking) && Shipping.IsTracking(e.tracking, o.id)
               && s.log[j].correlation == o.id
               && o.total <= 1000.0
               && exists p, c, r :: 0 <= p < c < r < j
                    && s.log[p].body == OrderPlaced(o)
                    && s.log[c].body == PaymentCaptured(o.id, o.customer, o.sku, o.quantity, o.total)
                    && s.log[r].body == StockReserved(o.id, o.customer, o.sku, o.quantity)
  {
    ReachableInv(s);
    var p, c, r := Traceable(s.books.rows, s.log, j);
    Shipping.TrackingIsTheOne(s.log[j].body.id, s.log[j].body.tracking);
  }

  lemma Traceable(rows: map<OrderId, Order>, log: seq<Message>, j: nat) returns (p: nat, c: nat, r: nat)
    requires History(rows, log) && j < |log| && log[j].body.OrderShipped?
    ensures var id := log[j].body.id;
            && id in rows && log[j] == ShippedOf(rows[id]) && rows[id].total <= Payments.AUTOMATIC_LIMIT
            && p < c < r < j
            && log[p] == PlacedOf(rows[id]) && log[c] == CapturedOf(rows[id]) && log[r] == ReservedOf(rows[id])
  {
    assert Caused(rows, log[..j], log[j]);
    var o := rows[log[j].body.id];
    r :| r < j && log[r] == ReservedOf(o);
    assert Caused(rows, log[..r], log[r]);
    p, c := CaptureOf(rows, log, o, r);
  }

  lemma CaptureOf(rows: map<OrderId, Order>, log: seq<Message>, o: Order, r: nat) returns (p: nat, c: nat)
    requires History(rows, log) && r <= |log| && CapturedOf(o) in log[..r] && o.id in rows && rows[o.id] == o
    ensures p < c < r && log[p] == PlacedOf(o) && log[c] == CapturedOf(o) && o.total <= Payments.AUTOMATIC_LIMIT
  {
    c :| c < r && log[c] == CapturedOf(o);
    assert Caused(rows, log[..c], log[c]);
    p :| p < c && log[p] == PlacedOf(o);
  }

  /** Unless a claim is abandoned, no committed order stops silently: it waits in
      the outbox, or a delivery of it waits, is in a handler or is dead, or its
      outcome is published. This holds with claims expiring and handlers
      releasing one another's claims. */
  lemma NoOrderStopsSilently(s: State, id: OrderId)
    requires Reachable(s) && id in s.books.rows && Stranded(id) !in s.faults
    ensures || id in s.books.outbox
            || (exists j :: 0 <= j < |s.deliveries| && IsOpen(s.deliveries[j], id))
            || (exists m :: m in s.log && IsOutcome(m, id))
  {
    ReachableInv(s);
    if id !in s.books.outbox {
      var m := PlacedOf(s.books.rows[id]);
      assert Delivered(s, m);
      var j :| 0 <= j < |s.deliveries| && s.deliveries[j].msg == m;
      assert NoSilentLoss.Answered(s, s.deliveries[j]);
      assert IsOpen(s.deliveries[j], id) || Accounted(s, id);
    }
  }

  /** Nothing about the order is waiting, in a handler or dead, and no outcome of it is published. */
  ghost predicate Silent(s: State, id: OrderId) {
    !Open(s, id) && !Decided(s, id)
  }

  /** A delivery of the order is refused because somebody has its claim. */
  predicate Refuses(s: State, a: Action, id: OrderId) {
    && a.Advance? && a.i < |s.deliveries| && IsOpen(s.deliveries[a.i], id) && s.deliveries[a.i].phase == Waiting
    && a.reply == Ok && !Claims.Free(s.till.claims, id)
  }

  ghost predicate IsLastOpen(s: State, i: nat, id: OrderId) {
    forall j :: 0 <= j < |s.deliveries| && IsOpen(s.deliveries[j], id) ==> j == i
  }

  /** Exactly which step silences an order: the refusal of its last delivery, by a claim
      that nobody is behind. A claim that has timed out refuses nothing. */
  lemma SilencedExactlyByRefusal(s: State, a: Action, id: OrderId)
    requires Reachable(s) && Enabled(s, a) && !Silent(s, id)
    ensures Silent(Step(s, a), id) <==> Refuses(s, a, id) && IsLastOpen(s, a.i, id) && !Decided(s, id)
    ensures Silent(Step(s, a), id) ==> Stranded(id) in s.faults
  {
    ReachableInv(s);
    if a.Advance? && s.deliveries[a.i].msg.body.OrderPlaced? {
      ChargeSilences(s, a.i, a.reply, id);
    } else {
      OthersSilenceNothing(s, a, id);
    }
  }

  /** A step that keeps every delivery of the order open. */
  lemma StaysOpen(s: State, s': State, id: OrderId)
    requires !Silent(s, id) && s.log <= s'.log && |s.deliveries| <= |s'.deliveries|
    requires forall j :: 0 <= j < |s.deliveries| && IsOpen(s.deliveries[j], id) ==> IsOpen(s'.deliveries[j], id)
    ensures !Silent(s', id)
  {
    assert forall m :: m in s.log ==> m in s'.log;
    if j :| 0 <= j < |s.deliveries| && IsOpen(s.deliveries[j], id) {
      assert IsOpen(s'.deliveries[j], id);
    }
  }

  lemma OthersSilenceNothing(s: State, a: Action, id: OrderId)
    requires !Silent(s, id) && Enabled(s, a) && !(a.Advance? && s.deliveries[a.i].msg.body.OrderPlaced?)
    ensures !Silent(Step(s, a), id) && !Refuses(s, a, id)
  {
    match a
    case Advance(i, r) => AdvanceSilencesNothing(s, i, r, id);
    case Crash(i, spends) => StaysOpen(s, Crashed(s, i, spends), id);
    case Redeliver(i, left) => StaysOpen(s, Redelivered(s, i, left), id);
    case Relay(o, r) => StaysOpen(s, Relayed(s, o, r), id);
    case _ => QuietSilencesNothing(s, a, id);
  }

  lemma QuietSilencesNothing(s: State, a: Action, id: OrderId)
    requires !Silent(s, id) && Enabled(s, a) && !(a.Advance? || a.Crash? || a.Redeliver? || a.Relay?)
    ensures !Silent(Step(s, a), id)
  {
    StaysOpen(s, Step(s, a), id);
  }

  lemma AdvanceSilencesNothing(s: State, i: nat, r: Reply, id: OrderId)
    requires !Silent(s, id) && Enabled(s, Advance(i, r)) && !s.deliveries[i].msg.body.OrderPlaced?
    ensures !Silent(Advanced(s, i, r), id)
  {
    assert Framed(s, Handled(s, i, r), i);
    StaysOpen(s, Advanced(s, i, r), id);
  }

  lemma ChargeSilences(s: State, i: nat, r: Reply, id: OrderId)
    requires Lossless(s) && !Silent(s, id) && Enabled(s, Advance(i, r)) && s.deliveries[i].msg.body.OrderPlaced?
    ensures var a := Advance(i, r);
            && (Silent(Step(s, a), id) <==> Refuses(s, a, id) && IsLastOpen(s, i, id) && !Decided(s, id))
            && (Silent(Step(s, a), id) ==> Stranded(id) in s.faults)
  {
    var d, s1 := s.deliveries[i], Charging(s, i, r);
    var s' := Publish(s1, Sent(s, i, r));
    assert Framed(s, s1, i) && Step(s, Advance(i, r)) == s';
    if !Refuses(s, Advance(i, r), id) {
      ChargeKeepsHeard(s, i, r, id);
    } else {
      assert Sent(s, i, r) == [] && s'.deliveries[i].phase == Settled(Accept) && s'.log == s.log;
      if IsLastOpen(s, i, id) && !Decided(s, id) {
        assert !Open(s', id);
        HeldByNobody(s, i, id);
      } else if j :| 0 <= j < |s.deliveries| && IsOpen(s.deliveries[j], id) && j != i {
        assert IsOpen(s'.deliveries[j], id);
      }
    }
  }

  /** Whatever else `charge` does, its delivery stays open or there is an outcome. */
  lemma ChargeKeepsHeard(s: State, i: nat, r: Reply, id: OrderId)
    requires Lossless(s) && !Silent(s, id) && Enabled(s, Advance(i, r)) && s.deliveries[i].msg.body.OrderPlaced?
    requires !Refuses(s, Advance(i, r), id)
    ensures !Silent(Publish(Charging(s, i, r), Sent(s, i, r)), id)
  {
    var s1 := Charging(s, i, r);
    var s' := Publish(s1, Sent(s, i, r));
    assert Framed(s, s1, i);
    if Decided(s, id) {
      assert forall m :: m in s.log ==> m in s'.log;
    } else {
      assert NoSilentLoss.Answered(s, s.deliveries[i]);
      if IsOpen(s.deliveries[i], id) {
        StaysUnsettled(s.till, s.deliveries[i], r, id);
      }
      StaysOpen(s, s', id);
    }
  }

  /** Only the refusal and the end of a published charge settle a delivery for good. */
  lemma StaysUnsettled(t: Payments.Till, d: Delivery, r: Reply, id: OrderId)
    requires d.msg.body.OrderPlaced? && Payments.Works(d.phase) && IsOpen(d, id) && d.phase != Published
    requires !(d.phase == Waiting && r == Ok && !Claims.Free(t.claims, id))
    ensures IsOpen(Acknowledged(d, Payments.Step(t, d.msg, d.phase, r).phase), id)
  {
  }

  /** A claim that refuses the last delivery of an undecided order was left behind. */
  lemma HeldByNobody(s: State, i: nat, id: OrderId)
    requires Lossless(s) && i < |s.deliveries| && IsOpen(s.deliveries[i], id) && s.deliveries[i].phase == Waiting
    requires IsLastOpen(s, i, id) && !Decided(s, id) && !Claims.Free(s.till.claims, id)
    ensures Stranded(id) in s.faults
  {
    assert Backed(s, id);
    if j :| 0 <= j < |s.deliveries| && IsHolder(s.deliveries[j], id) {
      assert IsOpen(s.deliveries[j], id);
    }
  }

  /** No captured payment stops at inventory and no reservation at shipping: each
      has a delivery that is live or dead, or its answer is published. */
  lemma NothingStopsDownstream(s: State, m: Message)
    requires Reachable(s) && m in s.log && (m.body.PaymentCaptured? || m.body.StockReserved?)
    ensures || (exists j :: 0 <= j < |s.deliveries| && s.deliveries[j].msg == m && s.deliveries[j].phase != Settled(Accept))
            || (m.body.PaymentCaptured? && StockAnswered(s, m.body.id))
            || (m.body.StockReserved? && Shipped(s, m.body.id))
  {
    ReachableInv(s);
    assert Delivered(s, m);
    var j :| 0 <= j < |s.deliveries| && s.deliveries[j].msg == m;
    assert NoSilentLoss.Answered(s, s.deliveries[j]);
  }

  /** No interleaving of reservations makes or loses stock. */
  lemma StockIsConserved(s: State, sku: Sku)
    requires Reachable(s)
    ensures Get(s.shelf.stock, sku) + Taken(s, sku) + Promised(s, sku) + Get(s.mislaid, sku)
            == Get(s.supplied, sku) + Get(s.phantom, sku)
  {
    ReachableInv(s);
    assert Conserved(s, sku);
  }

  ghost predicate AllAtLeast(trace: seq<Action>, least: int) {
    forall a :: a in trace ==> AtLeast(a, least)
  }

  lemma {:induction false} NonNegativeRun(s: State, trace: seq<Action>)
    requires Inv(s) && NonNegative(s) && Fulfilment.Valid(s, trace) && AllAtLeast(trace, 0)
    ensures NonNegative(Run(s, trace))
    decreases |trace|
  {
    if trace != [] {
      assert trace[0] in trace;
      NonNegativeStep(s, trace[0]);
      InvStep(s, trace[0]);
      NonNegativeRun(Step(s, trace[0]), trace[1..]);
    }
  }

  /** With no negative quantity ordered or stocked, the shelf never goes below zero, and
      no more is promised than was supplied and put back although it was promised. */
  lemma NoOverselling(failures: nat, ship: nat, trace: seq<Action>, sku: Sku)
    requires ship >= 1 && Fulfilment.Valid(Init(failures, ship), trace) && AllAtLeast(trace, 0)
    ensures var s := Run(Init(failures, ship), trace);
            && Get(s.shelf.stock, sku) >= 0
            && Promised(s, sku) <= Get(s.supplied, sku) + Get(s.phantom, sku)
  {
    InvInit(failures, ship);
    NonNegativeRun(Init(failures, ship), trace);
    InvRun(Init(failures, ship), trace);
    var s := Run(Init(failures, ship), trace);
    assert Conserved(s, sku);
    TakenNonNegative(s, sku);
  }

  /** What inventory's handlers ask for, by a retry or by the dead letter in place of
      one, is one failed warehouse call or one failed publish each. A dead letter lacks
      four attempts: these, or those that a death spent or that a copy came without. */
  lemma FailuresArePaidFor(s: State)
    requires Reachable(s)
    ensures FailedCalls(s) <= Asked(s) <= FailedCalls(s) + s.faults[PublishFailed]
    ensures 4 * DeadLetters(s) <= FailedCalls(s) + s.faults[PublishFailed] + s.tally.killed + s.tally.copied
  {
    ReachableInv(s);
    DeadLettersSpent(s.deliveries);
    SumNonNegative(PuttingBack(), s.deliveries);
  }

  /** When publishes succeed and no attempt is lost to a death or a copy, every warehouse
      call that failed is one retry or one dead letter, and nothing else is. */
  lemma EveryFailureIsOneRetry(s: State)
    requires Reachable(s) && PublishFailed !in s.faults && s.tally.dropped == 0
    ensures s.tally.retried + DeadLetters(s) == if s.shelf.calls < s.shelf.failures then s.shelf.calls else s.shelf.failures
  {
    FailuresArePaidFor(s);
  }

  /** However often its message is delivered again, an order is dead-lettered only after
      four attempts of its own were spent, by failures or by deaths. */
  lemma DeadOrdersArePaidFor(s: State)
    requires Reachable(s)
    ensures 4 * |DeadOrders(s)| <= FailedCalls(s) + s.faults[PublishFailed] + s.tally.killed
  {
    ReachableInv(s);
    SumNonNegative(PuttingBack(), s.deliveries);
    forall id | id in DeadOrders(s) ensures 4 <= s.tally.spent[id] {
      var d :| d in s.deliveries && IsDeadLetter(d) && d.msg.body.id == id;
      assert InBounds(d) && Answers(s.tally, d);
    }
    EachSpent(DeadOrders(s), s.tally.spent);
  }

  /** Three failures or fewer kill no order, of the warehouse, of publishes or of handlers,
      however often anything is delivered again. */
  lemma FlakyWarehouseIsSurvived(s: State, d: Delivery)
    requires Reachable(s) && s.shelf.failures + s.faults[PublishFailed] + s.tally.killed <= 3
    requires d in s.deliveries && d.msg.body.PaymentCaptured?
    ensures d.phase != Dead
  {
    assert IsDeadLetter(d) ==> d.msg.body.id in DeadOrders(s);
    DeadOrdersArePaidFor(s);
  }

  lemma {:induction false} WordPrefix(log: seq<Message>, n: nat, id: OrderId)
    requires n <= |log|
    ensures Notifications.Word(log[..n], id) <= Notifications.Word(log, id)
  {
    if n == |log| {
      assert log[..n] == log;
    } else {
      assert log[..|log| - 1][..n] == log[..n];
      WordPrefix(log[..|log| - 1], n, id);
    }
  }

  /** A customer never sees an event before its cause, whatever was delivered or
      published more than once. */
  lemma TimelineFollowsCauses(s: State, id: OrderId)
    requires Reachable(s)
    ensures Explained(Notifications.TimelineOf(s.timeline, id))
  {
    ReachableInv(s);
    assert Tells(s, id);
  }

  /** The timeline of an order nobody duplicated is at all times a beginning of
      one of three words. */
  lemma TimelineIsExpected(s: State, id: OrderId)
    requires Reachable(s) && Duplicated(id) !in s.faults
    ensures Expected(Notifications.TimelineOf(s.timeline, id))
  {
    ReachableInv(s);
    assert Steady(s, id) && Tells(s, id);
    WordPrefix(s.log, s.seen, id);
  }

  /** When everything is drained, an order that was not duplicated, dead-lettered
      or abandoned has a whole timeline. */
  lemma DrainedTimelineIsWhole(s: State, id: OrderId)
    requires Reachable(s) && Drained(s) && id in s.books.rows
    requires NoDeadLetter(s, id) && Duplicated(id) !in s.faults && Stranded(id) !in s.faults
    ensures Notifications.TimelineOf(s.timeline, id) in {SHIPPED, DECLINED, OUT_OF_STOCK}
  {
    ReachableInv(s);
    assert Steady(s, id);
    DrainedIsComplete(s, id);
  }

  /** In every run, the steps the services make are bounded by the orders placed, the
      crashes, and the redeliveries and misreported publishes; so a run over finitely
      many orders, in which finitely much fails, stops. */
  lemma EveryRunDrains(failures: nat, ship: nat, trace: seq<Action>)
    requires ship >= 1 && Fulfilment.Valid(Init(failures, ship), trace)
    ensures Work(trace) <= Times(Budget(ship), Demand(trace))
  {
    var s0 := Init(failures, ship);
    InvInit(failures, ship);
    WorkIsBounded(s0, trace);
    RemainingNonNegative(Run(s0, trace));
    DisturbancesAreDemanded(s0, trace);
    TimesMonotone(Budget(ship), Count(IsDisturbance, trace), Demand(trace));
  }

  /** And it stops only drained: until then a service or the relay can act. */
  lemma ReachableNeverStuck(s: State)
    requires Reachable(s) && !Drained(s)
    ensures || Enabled(s, Notify)
            || (exists i: nat :: Enabled(s, Advance(i, Ok)))
            || (exists id :: Enabled(s, Relay(id, Ok)) || Enabled(s, Remove(id)))
  {
    ReachableInv(s);
    if j: nat :| j < |s.deliveries| && s.deliveries[j].Live() {
      assert s.deliveries[j] in s.deliveries;
    }
    NeverStuck(s);
  }
}

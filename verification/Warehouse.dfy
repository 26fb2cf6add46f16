/** How many retries and dead letters a flaky warehouse can cause. */
module Warehouse {
  import opened Collections
  import opened Contracts
  import opened Fulfilment
  import opened Messaging
  import Inventory

  /** The attempts a delivery at inventory does not have any more. */
  ghost function SpentOn(): Delivery -> int {
    (d: Delivery) => if d.msg.body.PaymentCaptured? then Inventory.ATTEMPTS - d.left else 0
  }

  predicate IsDeadLetter(d: Delivery) {
    d.msg.body.PaymentCaptured? && d.phase == Dead
  }

  ghost function DeadLetter(): Delivery -> int {
    (d: Delivery) => if IsDeadLetter(d) then 1 else 0
  }

  ghost function PuttingBack(): Delivery -> int {
    (d: Delivery) => if d.msg.body.PaymentCaptured? && d.phase in {Failing, Unsure} then 1 else 0
  }

  ghost function DeadLetters(s: State): int {
    Sum(DeadLetter(), s.deliveries)
  }

  /** The orders inventory has dead-lettered. */
  function DeadOrders(s: State): set<OrderId> {
    set d | d in s.deliveries && IsDeadLetter(d) :: d.msg.body.id
  }

  /** The warehouse calls that failed. */
  function FailedCalls(s: State): nat {
    if s.shelf.calls < s.shelf.failures then s.shelf.calls else s.shelf.failures
  }

  /** The attempts that handlers asked to spend, by a retry or by the last of them. */
  ghost function Asked(s: State): int {
    s.tally.retried + DeadLetters(s) - s.tally.dropped
  }

  predicate InBounds(d: Delivery) {
    d.msg.body.PaymentCaptured? ==>
      && d.left <= Inventory.ATTEMPTS
      && (Inventory.Works(d.phase) ==> d.left >= 1)
      && (d.phase == Dead ==> d.left == 0)
  }

  /** Whatever attempts a delivery does not have, its order has spent. */
  predicate Answers(t: Tally, d: Delivery) {
    d.msg.body.PaymentCaptured? ==> Inventory.ATTEMPTS - d.left <= t.spent[d.msg.body.id]
  }

  ghost predicate Counted(s: State) {
    && (forall d :: d in s.deliveries ==> InBounds(d) && Answers(s.tally, d))
    && Sum(SpentOn(), s.deliveries) == Asked(s) + s.tally.killed + s.tally.copied
    && Asked(s) + Sum(PuttingBack(), s.deliveries) <= FailedCalls(s) + s.faults[PublishFailed]
    && FailedCalls(s) <= Asked(s)
    && |s.tally.spent| == Asked(s) + s.tally.killed
  }

  /** A delivery that joins the others. */
  lemma JoinCounts(s: State, s': State, d: Delivery)
    requires Counted(s) && s'.deliveries == s.deliveries + [d] && s'.shelf == s.shelf
    requires InBounds(d) && Answers(s.tally, d) && d.phase in {Waiting, Dead}
    requires s'.faults[PublishFailed] == s.faults[PublishFailed]
    requires s'.tally.retried == s.tally.retried && s'.tally.killed == s.tally.killed && s'.tally.spent == s.tally.spent
    requires s'.tally.copied == s.tally.copied + SpentOn()(d) && s'.tally.dropped == s.tally.dropped + DeadLetter()(d)
    ensures Counted(s')
  {
    SumSnoc(SpentOn(), s.deliveries, d);
    SumSnoc(DeadLetter(), s.deliveries, d);
    SumSnoc(PuttingBack(), s.deliveries, d);
  }

  lemma PublishCounts(s: State, sent: seq<Message>)
    requires Counted(s) && |sent| <= 1
    ensures Counted(Publish(s, sent))
  {
    if sent != [] && WorkQueue(sent[0].body).To? {
      JoinCounts(s, Publish(s, sent), Routed(s, sent[0])[0]);
    } else if sent != [] {
      assert s.deliveries + [] == s.deliveries;
    }
  }

  /** A delivery moves on: what it has spent was asked for or taken by a death. */
  lemma MoveCounts(s: State, s1: State, i: nat)
    requires Counted(s) && Framed(s, s1, i) && InBounds(s1.deliveries[i]) && Answers(s1.tally, s1.deliveries[i])
    requires s.tally.spent <= s1.tally.spent && s1.tally.copied == s.tally.copied
    requires var d, d' := s.deliveries[i], s1.deliveries[i];
             var asked := s1.tally.retried - s.tally.retried + DeadLetter()(d') - DeadLetter()(d) - s1.tally.dropped + s.tally.dropped;
             && SpentOn()(d') - SpentOn()(d) == asked + s1.tally.killed - s.tally.killed
             && asked + PuttingBack()(d') - PuttingBack()(d)
                <= FailedCalls(s1) - FailedCalls(s) + s1.faults[PublishFailed] - s.faults[PublishFailed]
             && FailedCalls(s1) - FailedCalls(s) <= asked
             && |s1.tally.spent| - |s.tally.spent| == asked + s1.tally.killed - s.tally.killed
    ensures Counted(s1)
  {
    SumUpdate(SpentOn(), s.deliveries, i, s1.deliveries[i]);
    SumUpdate(DeadLetter(), s.deliveries, i, s1.deliveries[i]);
    SumUpdate(PuttingBack(), s.deliveries, i, s1.deliveries[i]);
    forall d | d in s1.deliveries ensures InBounds(d) && Answers(s1.tally, d) {
      var j :| 0 <= j < |s1.deliveries| && s1.deliveries[j] == d;
      assert j != i ==> s.deliveries[j] == d;
    }
  }

  lemma ChargeCounts(s: State, i: nat, r: Reply)
    requires Counted(s) && Enabled(s, Advance(i, r)) && s.deliveries[i].msg.body.OrderPlaced?
    ensures Counted(Charging(s, i, r))
  {
    MoveCounts(s, Charging(s, i, r), i);
  }

  /** One action of `reserve` asks for at most one attempt, and a failure pays for it. */
  lemma ReserveSpends(s: State, i: nat, r: Reply)
    requires Enabled(s, Advance(i, r)) && s.deliveries[i].msg.body.PaymentCaptured? && InBounds(s.deliveries[i])
    ensures var d, s1 := s.deliveries[i], Reserving(s, i, r);
            var d' := s1.deliveries[i];
            var asked := s1.tally.retried - s.tally.retried + DeadLetter()(d') - DeadLetter()(d);
            && SpentOn()(d') - SpentOn()(d) == asked == |s1.tally.spent| - |s.tally.spent|
            && asked + PuttingBack()(d') - PuttingBack()(d)
               <= FailedCalls(s1) - FailedCalls(s) + s1.faults[PublishFailed] - s.faults[PublishFailed]
            && FailedCalls(s1) - FailedCalls(s) <= asked
            && InBounds(d') && (Answers(s.tally, d) ==> Answers(s1.tally, d'))
  {
    var d := s.deliveries[i];
    var turn := Inventory.Step(s.shelf, d.msg, d.phase, r);
    AttemptSpends(s.tally, d, turn.phase);
    assert Reserving(s, i, r).deliveries[i] == Acknowledged(d, turn.phase);
  }

  /** A retry takes one attempt off a delivery, and counts one for its order. */
  lemma AttemptSpends(t: Tally, d: Delivery, p: Phase)
    requires d.msg.body.PaymentCaptured? && InBounds(d) && Inventory.Works(d.phase)
    requires p == Settled(Retry) || p == Settled(Accept) || (Inventory.Works(p) && p != Waiting)
    ensures var d', t' := Acknowledged(d, p), Tried(t, d, p);
            && InBounds(d') && (Answers(t, d) ==> Answers(t', d'))
            && SpentOn()(d') - SpentOn()(d) == |t'.spent| - |t.spent| == (if p == Settled(Retry) then 1 else 0)
            && t'.retried - t.retried + DeadLetter()(d') - DeadLetter()(d) == (if p == Settled(Retry) then 1 else 0)
  {
  }

  lemma ReserveCounts(s: State, i: nat, r: Reply)
    requires Counted(s) && Enabled(s, Advance(i, r)) && s.deliveries[i].msg.body.PaymentCaptured?
    ensures Counted(Reserving(s, i, r))
  {
    assert InBounds(s.deliveries[i]) && Answers(s.tally, s.deliveries[i]);
    ReserveSpends(s, i, r);
    MoveCounts(s, Reserving(s, i, r), i);
  }

  lemma DispatchCounts(s: State, i: nat, r: Reply)
    requires Counted(s) && Enabled(s, Advance(i, r)) && s.deliveries[i].msg.body.StockReserved?
    ensures Counted(Dispatching(s, i, r))
  {
    MoveCounts(s, Dispatching(s, i, r), i);
  }

  lemma AdvanceCounts(s: State, i: nat, r: Reply)
    requires Counted(s) && Enabled(s, Advance(i, r))
    ensures Counted(Advanced(s, i, r))
  {
    var e := s.deliveries[i].msg.body;
    if e.OrderPlaced? { ChargeCounts(s, i, r); }
    else if e.PaymentCaptured? { ReserveCounts(s, i, r); }
    else { DispatchCounts(s, i, r); }
    PublishCounts(Handled(s, i, r), Sent(s, i, r));
  }

  lemma RelayCounts(s: State, id: OrderId, r: Reply)
    requires Counted(s) && Enabled(s, Relay(id, r))
    ensures Counted(Relayed(s, id, r))
  {
    if r != Failed {
      var s' := Relayed(s, id, r);
      var s0 := s.(books := s'.books, faults := s'.faults);
      assert Counted(s0);
      PublishCounts(s0, [s.books.outbox[id]]);
    }
  }

  lemma CrashCounts(s: State, i: nat, spends: bool)
    requires Counted(s) && Enabled(s, Crash(i, spends))
    ensures Counted(Crashed(s, i, spends))
  {
    assert InBounds(s.deliveries[i]) && Answers(s.tally, s.deliveries[i]);
    MoveCounts(s, Crashed(s, i, spends), i);
  }

  lemma RedeliverCounts(s: State, i: nat, left: nat)
    requires Counted(s) && Enabled(s, Redeliver(i, left))
    ensures Counted(Redelivered(s, i, left))
  {
    assert Answers(s.tally, s.deliveries[i]);
    JoinCounts(s, Redelivered(s, i, left), Copy(s.deliveries[i], left));
  }

  lemma QuietCounts(s: State, a: Action)
    requires Counted(s) && Enabled(s, a)
    requires !(a.Advance? || a.Relay? || a.Crash? || a.Redeliver?)
    ensures Counted(Step(s, a))
  {
  }

  lemma CountedStep(s: State, a: Action)
    requires Counted(s) && Enabled(s, a)
    ensures Counted(Step(s, a))
  {
    match a
    case Advance(i, r) => AdvanceCounts(s, i, r);
    case Relay(id, r) => RelayCounts(s, id, r);
    case Crash(i, spends) => CrashCounts(s, i, spends);
    case Redeliver(i, left) => RedeliverCounts(s, i, left);
    case _ => QuietCounts(s, a);
  }

  /** Every dead letter lacks as many attempts as there are. */
  lemma {:induction false} DeadLettersSpent(ds: seq<Delivery>)
    requires forall d :: d in ds ==> InBounds(d)
    ensures Inventory.ATTEMPTS * Sum(DeadLetter(), ds) <= Sum(SpentOn(), ds)
  {
    if ds != [] {
      DeadLettersSpent(ds[..|ds| - 1]);
      assert InBounds(ds[|ds| - 1]);
    }
  }

  /** Orders that have each spent all their attempts have spent them for each of them. */
  lemma {:induction false} EachSpent(ids: set<OrderId>, spent: multiset<OrderId>)
    requires forall id :: id in ids ==> Inventory.ATTEMPTS <= spent[id]
    ensures Inventory.ATTEMPTS * |ids| <= |spent|
    decreases |ids|
  {
    if ids != {} {
      var id :| id in ids;
      EachSpent(ids - {id}, spent[id := 0]);
    }
  }
}

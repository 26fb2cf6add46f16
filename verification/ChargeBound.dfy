/** How often payments can decide one order.

    The claim is the only guard, and a release takes it from whoever holds it. The
    bound is an invariant on a potential: outcomes published, plus handlers that
    still may publish, plus one when the claim is free for the taking. */
module ChargeBound {
  import opened Causality
  import opened Collections
  import opened Contracts
  import opened Fulfilment
  import opened Messaging
  import Claims
  import Payments

  predicate IsOutcome(m: Message, id: OrderId) {
    (m.body.PaymentCaptured? || m.body.PaymentDeclined?) && m.body.id == id
  }

  /** A delivery whose handler was given the claim and has not settled it. */
  predicate IsHolder(d: Delivery, id: OrderId) {
    d.msg.body.OrderPlaced? && d.msg.body.order.id == id && d.phase in {Holding, Failing}
  }

  ghost function OutcomeOf(id: OrderId): Message -> int {
    m => if IsOutcome(m, id) then 1 else 0
  }

  ghost function HolderOf(id: OrderId): Delivery -> int {
    d => if IsHolder(d, id) then 1 else 0
  }

  /** How many outcomes have been published for an order. */
  ghost function Outcomes(s: State, id: OrderId): int {
    Sum(OutcomeOf(id), s.log)
  }

  ghost function Holders(s: State, id: OrderId): int {
    Sum(HolderOf(id), s.deliveries)
  }

  ghost predicate Bounded(s: State, id: OrderId) {
    Outcomes(s, id) + Holders(s, id) + (if Claims.Free(s.till.claims, id) then 1 else 0)
      <= 1 + s.faults[ClaimExpired(id)] + s.faults[OutcomeUnsure(id)]
  }

  lemma PublishCounts(s: State, sent: seq<Message>, id: OrderId)
    requires |sent| <= 1
    ensures Outcomes(Publish(s, sent), id) == Outcomes(s, id) + if sent != [] && IsOutcome(sent[0], id) then 1 else 0
    ensures Holders(Publish(s, sent), id) == Holders(s, id)
  {
    if sent != [] {
      assert s.log + sent == s.log + [sent[0]];
      SumSnoc(OutcomeOf(id), s.log, sent[0]);
      RoutedAddsNoHolder(s, sent[0], id);
    }
  }

  lemma RoutedAddsNoHolder(s: State, m: Message, id: OrderId)
    ensures Sum(HolderOf(id), s.deliveries + Routed(s, m)) == Sum(HolderOf(id), s.deliveries)
  {
    if WorkQueue(m.body).To? {
      SumSnoc(HolderOf(id), s.deliveries, Routed(s, m)[0]);
    } else {
      assert s.deliveries + [] == s.deliveries;
    }
  }

  /** Who holds after one handler moved. */
  lemma HandlerCounts(s: State, i: nat, d: Delivery, id: OrderId)
    requires i < |s.deliveries|
    ensures Sum(HolderOf(id), s.deliveries[i := d]) ==
            Holders(s, id) - (if IsHolder(s.deliveries[i], id) then 1 else 0) + (if IsHolder(d, id) then 1 else 0)
  {
    SumUpdate(HolderOf(id), s.deliveries, i, d);
  }

  /** The accounting of one action of `charge`: a claim turns a free place into a
      holder, a publish turns a holder into an outcome, a release turns a holder
      into a free place; only an unsure publish gives something for nothing. */
  lemma ChargeAccounts(t: Payments.Till, m: Message, p: Phase, r: Reply)
    requires m.body.OrderPlaced? && Payments.Works(p)
    ensures var id := m.body.order.id;
            var turn := Payments.Step(t, m, p, r);
            && |turn.sent| <= 1
            && (turn.sent != [] ==> IsOutcome(turn.sent[0], id) && p == Holding)
            && |turn.sent| + (if turn.phase in {Holding, Failing} then 1 else 0) + (if Claims.Free(turn.state.claims, id) then 1 else 0)
                 <= (if p in {Holding, Failing} then 1 else 0) + (if Claims.Free(t.claims, id) then 1 else 0)
                    + (if p == Holding && r == Ambiguous then 1 else 0)
            && forall o :: o != id ==> Claims.Free(turn.state.claims, o) == Claims.Free(t.claims, o)
  {
  }

  /** A handler moved its delivery and published: what that does to the potential. */
  lemma MoveKeepsBound(s: State, s1: State, i: nat, sent: seq<Message>, id: OrderId)
    requires Bounded(s, id) && i < |s.deliveries| && |s1.deliveries| == |s.deliveries| && |sent| <= 1
    requires s1.log == s.log && s1.deliveries == s.deliveries[i := s1.deliveries[i]] && s.faults <= s1.faults
    requires (if sent != [] && IsOutcome(sent[0], id) then 1 else 0)
             + (if IsHolder(s1.deliveries[i], id) then 1 else 0)
             + (if Claims.Free(s1.till.claims, id) then 1 else 0)
             <= (if IsHolder(s.deliveries[i], id) then 1 else 0)
                + (if Claims.Free(s.till.claims, id) then 1 else 0)
                + s1.faults[OutcomeUnsure(id)] - s.faults[OutcomeUnsure(id)]
    ensures Bounded(Publish(s1, sent), id)
  {
    HandlerCounts(s, i, s1.deliveries[i], id);
    PublishCounts(s1, sent, id);
  }

  lemma ChargeKeepsBound(s: State, i: nat, r: Reply, id: OrderId)
    requires Bounded(s, id) && Enabled(s, Advance(i, r)) && s.deliveries[i].msg.body.OrderPlaced?
    ensures Bounded(Advanced(s, i, r), id)
  {
    var d := s.deliveries[i];
    ChargeAccounts(s.till, d.msg, d.phase, r);
    MoveKeepsBound(s, Charging(s, i, r), i, Payments.Step(s.till, d.msg, d.phase, r).sent, id);
  }

  lemma ReserveKeepsBound(s: State, i: nat, r: Reply, id: OrderId)
    requires Bounded(s, id) && Enabled(s, Advance(i, r)) && s.deliveries[i].msg.body.PaymentCaptured?
    ensures Bounded(Advanced(s, i, r), id)
  {
    MoveKeepsBound(s, Reserving(s, i, r), i, Sent(s, i, r), id);
  }

  lemma DispatchKeepsBound(s: State, i: nat, r: Reply, id: OrderId)
    requires Bounded(s, id) && Enabled(s, Advance(i, r)) && s.deliveries[i].msg.body.StockReserved?
    ensures Bounded(Advanced(s, i, r), id)
  {
    MoveKeepsBound(s, Dispatching(s, i, r), i, Sent(s, i, r), id);
  }

  lemma RelayKeepsBound(s: State, o: OrderId, r: Reply, id: OrderId)
    requires Bounded(s, id) && Enabled(s, Relay(o, r)) && s.books.outbox[o].body.OrderPlaced?
    ensures Bounded(Relayed(s, o, r), id)
  {
    if r != Failed {
      var m, s' := s.books.outbox[o], Relayed(s, o, r);
      var s0 := s.(books := s'.books, faults := s'.faults);
      assert s' == Publish(s0, [m]) && Bounded(s0, id);
      PublishCounts(s0, [m], id);
    }
  }

  lemma CrashKeepsBound(s: State, i: nat, spends: bool, id: OrderId)
    requires Bounded(s, id) && Enabled(s, Crash(i, spends))
    ensures Bounded(Crashed(s, i, spends), id)
  {
    HandlerCounts(s, i, Interrupted(s.deliveries[i], spends), id);
  }

  lemma RedeliverKeepsBound(s: State, i: nat, left: nat, id: OrderId)
    requires Bounded(s, id) && Enabled(s, Redeliver(i, left))
    ensures Bounded(Redelivered(s, i, left), id)
  {
    SumSnoc(HolderOf(id), s.deliveries, Copy(s.deliveries[i], left));
  }

  lemma AdvanceKeepsBound(s: State, i: nat, r: Reply, id: OrderId)
    requires Bounded(s, id) && Enabled(s, Advance(i, r))
    ensures Bounded(Advanced(s, i, r), id)
  {
    if s.deliveries[i].msg.body.OrderPlaced? { ChargeKeepsBound(s, i, r, id); }
    else if s.deliveries[i].msg.body.PaymentCaptured? { ReserveKeepsBound(s, i, r, id); }
    else { DispatchKeepsBound(s, i, r, id); }
  }

  lemma BoundedStep(s: State, a: Action, id: OrderId)
    requires Causal(s) && Bounded(s, id) && Enabled(s, a)
    ensures Bounded(Step(s, a), id)
  {
    match a
    case Advance(i, r) => AdvanceKeepsBound(s, i, r, id);
    case Relay(o, r) => RelayKeepsBound(s, o, r, id);
    case Crash(i, spends) => CrashKeepsBound(s, i, spends, id);
    case Redeliver(i, left) => RedeliverKeepsBound(s, i, left, id);
    case _ => QuietKeepsBound(s, a, id);
  }

  lemma QuietKeepsBound(s: State, a: Action, id: OrderId)
    requires Bounded(s, id) && Enabled(s, a)
    requires !(a.Advance? || a.Relay? || a.Crash? || a.Redeliver?)
    ensures Bounded(Step(s, a), id)
  {
  }
}

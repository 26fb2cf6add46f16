/** Particular runs: what an uninterrupted handler does, how far the bounds are
    reached, and why the hypotheses of the theorems are needed. */
module FulfilmentRuns {
  import opened Causality
  import opened ChargeBound
  import opened Collections
  import opened Contracts
  import opened Fulfilment
  import opened FulfilmentTheorems
  import opened Messaging
  import opened NoSilentLoss
  import Claims
  import Inventory
  import Payments

  lemma {:induction false} RunSnoc(s: State, trace: seq<Action>, a: Action)
    requires Fulfilment.Valid(s, trace) && Enabled(Run(s, trace), a)
    ensures Fulfilment.Valid(s, trace + [a]) && Run(s, trace + [a]) == Step(Run(s, trace), a)
    decreases |trace|
  {
    var t := trace + [a];
    if trace == [] {
      assert t == [a] && t[1..] == [];
    } else {
      assert t[0] == trace[0] && t[1..] == trace[1..] + [a];
      RunSnoc(Step(s, trace[0]), trace[1..], a);
    }
  }

  lemma ReachableStep(s: State, a: Action)
    requires Reachable(s) && Enabled(s, a)
    ensures Reachable(Step(s, a))
  {
    var failures: nat, ship: nat, trace :| RunTo(failures, ship, trace, s);
    RunSnoc(Init(failures, ship), trace, a);
    assert RunTo(failures, ship, trace + [a], Step(s, a));
  }

  lemma ReachableInit(failures: nat, ship: nat)
    requires ship >= 1
    ensures Reachable(Init(failures, ship))
  {
    assert RunTo(failures, ship, [], Init(failures, ship));
  }

  /** The steps the system makes when nobody interrupts a handling of `charge`. */
  function ChargeTrace(t: Payments.Till, m: Message, p: Phase, i: nat, replies: seq<Reply>): seq<Action>
    requires m.body.OrderPlaced? && (Payments.Works(p) || p.Settled?)
    decreases |replies|
  {
    if replies == [] || p.Settled? then []
    else
      var turn := Payments.Step(t, m, p, replies[0]);
      [Advance(i, replies[0])] + ChargeTrace(turn.state, m, turn.phase, i, replies[1..])
  }

  /** `trace` takes `s` to a state with this till, these messages published, and the
      delivery acknowledged so. */
  predicate Reaches(s: State, trace: seq<Action>, i: nat, d: Delivery, turn: Turn<Payments.Till, Message>) {
    && Fulfilment.Valid(s, trace)
    && var s' := Run(s, trace);
       s'.till == turn.state && s'.log == s.log + turn.sent && i < |s'.deliveries| && s'.deliveries[i] == d
  }

  /** A handler nobody interrupts is a run of the system: same claims and counters,
      same messages published, same acknowledgement. */
  lemma {:induction false} ChargeIsARun(s: State, i: nat, replies: seq<Reply>)
    requires i < |s.deliveries| && s.deliveries[i].msg.body.OrderPlaced? && Payments.Works(s.deliveries[i].phase)
    ensures var d := s.deliveries[i];
            var turn := Payments.Handling(s.till, d.msg, d.phase, replies);
            Reaches(s, ChargeTrace(s.till, d.msg, d.phase, i, replies), i, Acknowledged(d, turn.phase), turn)
    decreases |replies|
  {
    if replies == [] {
      assert s.log + [] == s.log;
    } else {
      var d := s.deliveries[i];
      var turn := Payments.Step(s.till, d.msg, d.phase, replies[0]);
      var s1 := OneCharge(s, i, replies[0]);
      if turn.phase.Settled? {
        NothingMore(s1, d.msg, turn.phase, i, replies[1..]);
      } else {
        ChargeIsARun(s1, i, replies[1..]);
      }
      var rest := ChargeTrace(turn.state, d.msg, turn.phase, i, replies[1..]);
      var tail := Payments.Handling(turn.state, d.msg, turn.phase, replies[1..]);
      assert Reaches(s1, rest, i, Acknowledged(d, tail.phase), tail);
      assert ChargeTrace(s.till, d.msg, d.phase, i, replies) == [Advance(i, replies[0])] + rest;
      assert Payments.Handling(s.till, d.msg, d.phase, replies) == Turn(tail.state, tail.phase, turn.sent + tail.sent);
    }
  }

  /** One action of `charge`, before any run. */
  lemma OneCharge(s: State, i: nat, r: Reply) returns (s1: State)
    requires i < |s.deliveries| && s.deliveries[i].msg.body.OrderPlaced? && Payments.Works(s.deliveries[i].phase)
    ensures var d := s.deliveries[i];
            var turn := Payments.Step(s.till, d.msg, d.phase, r);
            && s1.till == turn.state && i < |s1.deliveries| && s1.deliveries[i] == Acknowledged(d, turn.phase)
            && forall rest, d', tail :: Reaches(s1, rest, i, d', tail) ==>
                 Reaches(s, [Advance(i, r)] + rest, i, d', Turn(tail.state, tail.phase, turn.sent + tail.sent))
  {
    s1 := AfterCharge(s, i, r);
    var sent := Payments.Step(s.till, s.deliveries[i].msg, s.deliveries[i].phase, r).sent;
    forall rest, d', tail | Reaches(s1, rest, i, d', tail)
      ensures Reaches(s, [Advance(i, r)] + rest, i, d', Turn(tail.state, tail.phase, sent + tail.sent))
    {
      ReachesCons(s, Advance(i, r), s1, sent, rest, i, d', tail);
    }
  }

  lemma ReachesCons(s: State, a: Action, s1: State, sent: seq<Message>, rest: seq<Action>,
                    i: nat, d: Delivery, tail: Turn<Payments.Till, Message>)
    requires Enabled(s, a) && s1 == Step(s, a) && s1.log == s.log + sent && Reaches(s1, rest, i, d, tail)
    ensures Reaches(s, [a] + rest, i, d, Turn(tail.state, tail.phase, sent + tail.sent))
  {
    RunCons(s, a, s1, rest);
    LogsJoin(s.log, sent, tail.sent);
  }

  lemma NothingMore(s: State, m: Message, p: Phase, i: nat, replies: seq<Reply>)
    requires m.body.OrderPlaced? && p.Settled? && i < |s.deliveries|
    ensures Reaches(s, ChargeTrace(s.till, m, p, i, replies), i, s.deliveries[i], Payments.Handling(s.till, m, p, replies))
  {
    assert s.log + [] == s.log;
  }

  /** So is everything the service's method does. */
  lemma WholeChargeIsARun(s: State, i: nat, claim: Reply, publish: Reply, close: Reply, t': Payments.Till, sent: seq<Message>, ack: Ack)
    requires i < |s.deliveries| && s.deliveries[i].msg.body.OrderPlaced? && s.deliveries[i].phase == Waiting
    requires Payments.Charges(s.till, s.deliveries[i].msg, claim, publish, close, t', sent, ack)
    ensures exists trace :: Reaches(s, trace, i, Acknowledged(s.deliveries[i], Settled(ack)), Turn(t', Settled(ack), sent))
  {
    Payments.ChargeIsHandling(s.till, s.deliveries[i].msg, claim, publish, close, t', sent, ack);
    ChargeIsARun(s, i, [claim, publish, close]);
  }

  lemma LogsJoin(log: seq<Message>, first: seq<Message>, rest: seq<Message>)
    ensures log + first + rest == log + (first + rest)
  {
  }

  /** The system after one action of `charge`. */
  function AfterCharge(s: State, i: nat, r: Reply): (s1: State)
    requires i < |s.deliveries| && s.deliveries[i].msg.body.OrderPlaced? && Payments.Works(s.deliveries[i].phase)
    ensures s1 == Step(s, Advance(i, r))
    ensures var d := s.deliveries[i];
            var turn := Payments.Step(s.till, d.msg, d.phase, r);
            && s1.till == turn.state && s1.log == s.log + turn.sent
            && i < |s1.deliveries| && s1.deliveries[i] == Acknowledged(d, turn.phase)
  {
    assert Framed(s, Charging(s, i, r), i);
    Step(s, Advance(i, r))
  }

  /** The steps the system makes when nobody interrupts a handling of `reserve`. */
  function ReserveTrace(t: Inventory.Shelf, m: Message, p: Phase, i: nat, replies: seq<Reply>): seq<Action>
    requires m.body.PaymentCaptured? && (Inventory.Works(p) || p.Settled?)
    decreases |replies|
  {
    if replies == [] || p.Settled? then []
    else
      var turn := Inventory.Step(t, m, p, replies[0]);
      [Advance(i, replies[0])] + ReserveTrace(turn.state, m, turn.phase, i, replies[1..])
  }

  predicate ReachesShelf(s: State, trace: seq<Action>, i: nat, d: Delivery, turn: Turn<Inventory.Shelf, Message>) {
    && Fulfilment.Valid(s, trace)
    && var s' := Run(s, trace);
       s'.shelf == turn.state && s'.log == s.log + turn.sent && i < |s'.deliveries| && s'.deliveries[i] == d
  }

  /** A handler of inventory that nobody interrupts is a run of the system too. */
  lemma {:induction false} ReserveIsARun(s: State, i: nat, replies: seq<Reply>)
    requires i < |s.deliveries| && s.deliveries[i].msg.body.PaymentCaptured? && Inventory.Works(s.deliveries[i].phase)
    ensures var d := s.deliveries[i];
            var turn := Inventory.Handling(s.shelf, d.msg, d.phase, replies);
            ReachesShelf(s, ReserveTrace(s.shelf, d.msg, d.phase, i, replies), i, Acknowledged(d, turn.phase), turn)
    decreases |replies|
  {
    if replies == [] {
      assert s.log + [] == s.log;
    } else {
      var d := s.deliveries[i];
      var turn := Inventory.Step(s.shelf, d.msg, d.phase, replies[0]);
      var s1 := OneReserve(s, i, replies[0]);
      var rest := ReserveTrace(turn.state, d.msg, turn.phase, i, replies[1..]);
      var tail := Inventory.Handling(turn.state, d.msg, turn.phase, replies[1..]);
      if turn.phase.Settled? {
        assert s1.log + [] == s1.log;
      } else {
        ReserveIsARun(s1, i, replies[1..]);
      }
      assert ReachesShelf(s1, rest, i, Acknowledged(d, tail.phase), tail);
      assert ReserveTrace(s.shelf, d.msg, d.phase, i, replies) == [Advance(i, replies[0])] + rest;
      assert Inventory.Handling(s.shelf, d.msg, d.phase, replies) == Turn(tail.state, tail.phase, turn.sent + tail.sent);
    }
  }

  /** One action of `reserve`, before any run. */
  lemma OneReserve(s: State, i: nat, r: Reply) returns (s1: State)
    requires i < |s.deliveries| && s.deliveries[i].msg.body.PaymentCaptured? && Inventory.Works(s.deliveries[i].phase)
    ensures var d := s.deliveries[i];
            var turn := Inventory.Step(s.shelf, d.msg, d.phase, r);
            && s1.shelf == turn.state && i < |s1.deliveries| && s1.deliveries[i] == Acknowledged(d, turn.phase)
            && forall rest, d', tail :: ReachesShelf(s1, rest, i, d', tail) ==>
                 ReachesShelf(s, [Advance(i, r)] + rest, i, d', Turn(tail.state, tail.phase, turn.sent + tail.sent))
  {
    s1 := AfterReserve(s, i, r);
    var sent := Inventory.Step(s.shelf, s.deliveries[i].msg, s.deliveries[i].phase, r).sent;
    forall rest, d', tail | ReachesShelf(s1, rest, i, d', tail)
      ensures ReachesShelf(s, [Advance(i, r)] + rest, i, d', Turn(tail.state, tail.phase, sent + tail.sent))
    {
      ReachesShelfCons(s, Advance(i, r), s1, sent, rest, i, d', tail);
    }
  }

  lemma ReachesShelfCons(s: State, a: Action, s1: State, sent: seq<Message>, rest: seq<Action>,
                         i: nat, d: Delivery, tail: Turn<Inventory.Shelf, Message>)
    requires Enabled(s, a) && s1 == Step(s, a) && s1.log == s.log + sent && ReachesShelf(s1, rest, i, d, tail)
    ensures ReachesShelf(s, [a] + rest, i, d, Turn(tail.state, tail.phase, sent + tail.sent))
  {
    RunCons(s, a, s1, rest);
    LogsJoin(s.log, sent, tail.sent);
  }

  lemma WholeReserveIsARun(s: State, i: nat, publish: Reply, shelf: Inventory.Shelf, sent: seq<Message>, ack: Ack)
    requires i < |s.deliveries| && s.deliveries[i].msg.body.PaymentCaptured? && s.deliveries[i].phase == Waiting
    requires Inventory.Reserves(s.shelf, s.deliveries[i].msg, publish, shelf, sent, ack)
    ensures exists trace :: ReachesShelf(s, trace, i, Acknowledged(s.deliveries[i], Settled(ack)), Turn(shelf, Settled(ack), sent))
  {
    Inventory.ReserveIsHandling(s.shelf, s.deliveries[i].msg, publish, shelf, sent, ack);
    ReserveIsARun(s, i, [Ok, Ok, publish, Ok]);
  }

  /** The system after one action of `reserve`. */
  function AfterReserve(s: State, i: nat, r: Reply): (s1: State)
    requires i < |s.deliveries| && s.deliveries[i].msg.body.PaymentCaptured? && Inventory.Works(s.deliveries[i].phase)
    ensures s1 == Step(s, Advance(i, r))
    ensures var d := s.deliveries[i];
            var turn := Inventory.Step(s.shelf, d.msg, d.phase, r);
            && s1.shelf == turn.state && s1.log == s.log + turn.sent
            && i < |s1.deliveries| && s1.deliveries[i] == Acknowledged(d, turn.phase)
  {
    assert Framed(s, Reserving(s, i, r), i);
    Step(s, Advance(i, r))
  }

  lemma RunCons(s: State, a: Action, s1: State, rest: seq<Action>)
    requires Enabled(s, a) && s1 == Step(s, a) && Fulfilment.Valid(s1, rest)
    ensures Fulfilment.Valid(s, [a] + rest) && Run(s, [a] + rest) == Run(s1, rest)
  {
    assert ([a] + rest)[1..] == rest;
  }

  /** One action of `charge`, in a run. */
  lemma Charge(s: State, i: nat, r: Reply) returns (s1: State)
    requires Reachable(s)
    requires i < |s.deliveries| && s.deliveries[i].msg.body.OrderPlaced? && Payments.Works(s.deliveries[i].phase)
    ensures Reachable(s1)
    ensures var d := s.deliveries[i];
            var turn := Payments.Step(s.till, d.msg, d.phase, r);
            && s1.till == turn.state && s1.log == s.log + turn.sent
            && s1.books == s.books && s1.faults == s.faults + ChargeFaults(d, r)
            && |s1.deliveries| >= |s.deliveries|
            && s1.deliveries[..|s.deliveries|] == s.deliveries[i := Acknowledged(d, turn.phase)]
            && (turn.sent == [] ==> |s1.deliveries| == |s.deliveries|)
  {
    s1 := AfterCharge(s, i, r);
    ReachableStep(s, Advance(i, r));
    assert Framed(s, Charging(s, i, r), i);
  }

  /** The system when one order has been placed, announced and removed from the outbox. */
  lemma Announce(o: Order) returns (s: State)
    ensures Reachable(s)
    ensures s.log == [PlacedOf(o)] && s.deliveries == [Delivery(PlacedOf(o), Payments.ATTEMPTS, Waiting)]
    ensures o.id in s.books.rows && s.books.rows[o.id] == o && s.books.outbox == map[]
    ensures s.till.claims == map[] && s.faults == multiset{}
  {
    var s0 := Init(0, 1);
    ReachableInit(0, 1);
    var s1 := Step(s0, Place(o));
    ReachableStep(s0, Place(o));
    var s2 := Step(s1, Relay(o.id, Ok));
    ReachableStep(s1, Relay(o.id, Ok));
    s := Step(s2, Remove(o.id));
    ReachableStep(s2, Remove(o.id));
    assert s2.log == [PlacedOf(o)];
    assert s2.deliveries == [Delivery(PlacedOf(o), Payments.ATTEMPTS, Waiting)];
  }

  /** An action of `charge` that publishes nothing, on the only delivery there is. */
  lemma ChargeAlone(s: State, o: Order, left: nat, p: Phase, r: Reply) returns (s': State)
    requires Reachable(s) && Alone(s, o, left, p) && Payments.Works(p)
    requires Payments.Step(s.till, PlacedOf(o), p, r).sent == []
    ensures Reachable(s')
    ensures var d := Delivery(PlacedOf(o), left, p);
            var turn := Payments.Step(s.till, PlacedOf(o), p, r);
            && s'.till == turn.state && s'.log == s.log && s'.books == s.books
            && s'.deliveries == [Acknowledged(d, turn.phase)] && s'.faults == s.faults + ChargeFaults(d, r)
  {
    s' := Charge(s, 0, r);
    assert s'.deliveries == s'.deliveries[..1];
  }

  /** The claim fails, and the delivery has one attempt fewer. */
  lemma FailClaim(s: State, o: Order, left: nat) returns (s': State)
    requires Reachable(s) && Alone(s, o, left, Waiting) && left > 0 && s.faults == multiset{}
    ensures Reachable(s') && s'.faults == multiset{} && s'.till.claims == s.till.claims
    ensures if left > 1 then Alone(s', o, left - 1, Waiting) else Alone(s', o, 0, Dead)
  {
    s' := ChargeAlone(s, o, left, Waiting, Failed);
  }

  /** Payments tries an order four times, and then it is dead: not three, and not five. */
  lemma FourFailedClaimsKillOrder(o: Order) returns (three: State, four: State)
    ensures Reachable(three) && three.deliveries == [Delivery(PlacedOf(o), 1, Waiting)] && three.faults == multiset{}
    ensures Reachable(four) && four.deliveries == [Delivery(PlacedOf(o), 0, Dead)] && four.faults == multiset{}
    ensures four.log == [PlacedOf(o)] && four.till.claims == map[]
  {
    var s0 := Announce(o);
    var s1 := FailClaim(s0, o, Payments.ATTEMPTS);
    var s2 := FailClaim(s1, o, 3);
    three := FailClaim(s2, o, 2);
    four := FailClaim(three, o, 1);
  }

  /** An order that is gone: committed and announced, no record of it left in the
      outbox, every delivery of it accepted, and nothing ever published about it. */
  predicate Gone(s: State, id: OrderId) {
    && id in s.books.rows && |s.books.outbox| == 0
    && (forall d :: d in s.deliveries ==> !IsOpen(d, id))
    && (forall m :: m in s.log ==> !IsOutcome(m, id))
  }

  /** One delivery of one announced order, and nothing else. */
  predicate Alone(s: State, o: Order, left: nat, p: Phase) {
    && o.id in s.books.rows && s.books.outbox == map[]
    && s.log == [PlacedOf(o)] && s.deliveries == [Delivery(PlacedOf(o), left, p)]
  }

  /** An announced order whose only delivery has claimed it. */
  lemma Claim(o: Order) returns (s: State)
    ensures Reachable(s) && Alone(s, o, Payments.ATTEMPTS, Holding)
    ensures s.till.claims == map[o.id := Claims.Held] && s.faults == multiset{}
  {
    var s0 := Announce(o);
    s := ChargeAlone(s0, o, Payments.ATTEMPTS, Waiting, Ok);
  }

  /** The last delivery is refused by a claim nobody is behind. */
  lemma Refuse(s: State, o: Order, left: nat) returns (s': State)
    requires Reachable(s) && Alone(s, o, left, Waiting) && s.till.claims == map[o.id := Claims.Held]
    ensures Reachable(s') && Gone(s', o.id) && s'.faults == s.faults
  {
    s' := ChargeAlone(s, o, left, Waiting, Ok);
  }

  lemma CrashOf(s: State, i: nat) returns (s1: State)
    requires Reachable(s) && Enabled(s, Crash(i, false))
    ensures Reachable(s1) && s1 == Crashed(s, i, false)
  {
    s1 := Crashed(s, i, false);
    ReachableStep(s, Crash(i, false));
  }

  /** A handler that holds the claim dies, and its delivery goes to another. */
  lemma Abandon(s: State, o: Order) returns (s': State)
    requires Reachable(s) && s.faults == multiset{} && (Alone(s, o, Payments.ATTEMPTS, Holding) || Alone(s, o, Payments.ATTEMPTS, Failing))
    ensures Reachable(s') && Alone(s', o, Payments.ATTEMPTS, Waiting) && s'.till == s.till
    ensures s'.faults == multiset{Stranded(o.id)}
  {
    s' := CrashOf(s, 0);
    assert s'.deliveries == [Delivery(PlacedOf(o), Payments.ATTEMPTS, Waiting)];
  }

  /** A crash between the claim and the publish is enough: the redelivery is
      refused as a duplicate and accepted, and any order can be lost this way. */
  lemma CrashWithClaimLosesOrder(o: Order)
    ensures exists s :: Reachable(s) && Gone(s, o.id) && s.faults == multiset{Stranded(o.id)}
  {
    var held := Claim(o);
    var abandoned := Abandon(held, o);
    var gone := Refuse(abandoned, o, Payments.ATTEMPTS);
  }

  /** A delivery that has claimed its order and could not publish. */
  lemma Unsent(o: Order) returns (s: State)
    ensures Reachable(s) && Alone(s, o, Payments.ATTEMPTS, Failing)
    ensures s.till.claims == map[o.id := Claims.Held] && s.faults == multiset{}
  {
    var held := Claim(o);
    s := ChargeAlone(held, o, Payments.ATTEMPTS, Holding, Failed);
  }

  /** And so is a release that fails after the publish did. */
  lemma FailedReleaseLosesOrder(o: Order)
    ensures exists s :: Reachable(s) && Gone(s, o.id) && s.faults == multiset{Stranded(o.id)}
  {
    var unsent := Unsent(o);
    var unreleased := FailRelease(unsent, o);
    var gone := Refuse(unreleased, o, Payments.ATTEMPTS - 1);
  }

  lemma FailRelease(s: State, o: Order) returns (s': State)
    requires Reachable(s) && Alone(s, o, Payments.ATTEMPTS, Failing)
    ensures Reachable(s') && Alone(s', o, Payments.ATTEMPTS - 1, Waiting)
    ensures s'.till.claims == s.till.claims && s'.faults == s.faults + multiset{Stranded(o.id)}
  {
    s' := ChargeAlone(s, o, Payments.ATTEMPTS, Failing, Failed);
  }

  /** And so is a claim that is granted and reported as failed: no handler knows of it. */
  lemma UnsureClaimLosesOrder(o: Order)
    ensures exists s :: Reachable(s) && Gone(s, o.id) && s.faults == multiset{Stranded(o.id)}
  {
    var s0 := Announce(o);
    var s1 := ClaimUnsure(s0, o);
    var gone := Refuse(s1, o, Payments.ATTEMPTS - 1);
  }

  lemma ClaimUnsure(s: State, o: Order) returns (s': State)
    requires Reachable(s) && Alone(s, o, Payments.ATTEMPTS, Waiting) && s.till.claims == map[]
    ensures Reachable(s') && Alone(s', o, Payments.ATTEMPTS - 1, Waiting)
    ensures s'.till.claims == map[o.id := Claims.Held] && s'.faults == s.faults + multiset{Stranded(o.id)}
  {
    s' := ChargeAlone(s, o, Payments.ATTEMPTS, Waiting, Ambiguous);
  }

  /** And so is a crash after a failed publish, before the release. */
  lemma CrashBeforeReleaseLosesOrder(o: Order)
    ensures exists s :: Reachable(s) && Gone(s, o.id) && s.faults == multiset{Stranded(o.id)}
  {
    var unsent := Unsent(o);
    var abandoned := Abandon(unsent, o);
    var gone := Refuse(abandoned, o, Payments.ATTEMPTS);
  }

  /** What such a crash loses is a race: when the claim times out before the message is
      handled again, the order is decided after all. */
  lemma TimeoutRescuesOrder(o: Order)
    ensures exists s :: Reachable(s) && Outcomes(s, o.id) == 1
              && s.faults == multiset{Stranded(o.id), ClaimExpired(o.id)}
  {
    var held := Claim(o);
    var abandoned := Abandon(held, o);
    var expired := TimeOut(abandoned, o);
    var decided := Decide(expired, o, 0);
    UndecidedYet(PlacedOf(o), o.id);
  }

  lemma TimeOut(s: State, o: Order) returns (s': State)
    requires Reachable(s) && Alone(s, o, Payments.ATTEMPTS, Waiting) && s.till.claims == map[o.id := Claims.Held]
    ensures Reachable(s') && Alone(s', o, Payments.ATTEMPTS, Waiting) && Claims.Free(s'.till.claims, o.id)
    ensures s'.faults == s.faults + multiset{ClaimExpired(o.id)}
  {
    s' := Step(s, Expire(o.id));
    ReachableStep(s, Expire(o.id));
  }

  lemma UndecidedYet(m: Message, id: OrderId)
    requires m.body.OrderPlaced?
    ensures Sum(OutcomeOf(id), [m]) == 0
  {
    SumOne(OutcomeOf(id), m);
  }

  /** An order decided `n + 1` times because its claim expired `n` times. */
  ghost predicate DecidedAgain(s: State, o: Order, n: nat) {
    && Reachable(s)
    && |s.deliveries| > 0 && s.deliveries[0].msg == PlacedOf(o)
    && o.id in s.till.claims && s.till.claims[o.id] == Claims.Held
    && Outcomes(s, o.id) == n + 1
    && s.faults[ClaimExpired(o.id)] == n && s.faults[OutcomeUnsure(o.id)] == 0
  }

  /** The delivery that has the claim publishes the outcome. */
  lemma Decide(s: State, o: Order, k: nat) returns (s': State)
    requires Reachable(s) && k < |s.deliveries| && s.deliveries[k] == Delivery(PlacedOf(o), Payments.ATTEMPTS, Waiting)
    requires Claims.Free(s.till.claims, o.id)
    ensures Reachable(s') && |s'.deliveries| >= |s.deliveries| && s'.deliveries[0].msg == s.deliveries[0].msg
    ensures o.id in s'.till.claims && s'.till.claims[o.id] == Claims.Held
    ensures Outcomes(s', o.id) == Outcomes(s, o.id) + 1 && s'.faults == s.faults
  {
    var held := Charge(s, k, Ok);
    assert held.deliveries == held.deliveries[..|s.deliveries|];
    s' := Charge(held, k, Ok);
    assert s'.deliveries[0] == s'.deliveries[..|s.deliveries|][0];
    var m := Payments.Outcome(PlacedOf(o));
    assert held.log == s.log + [] == s.log;
    assert s'.log == s.log + [m];
    SumSnoc(OutcomeOf(o.id), s.log, m);
  }

  /** No delivery at payments has more attempts than there are. */
  lemma AttemptsLeft(s: State, i: nat)
    requires Reachable(s) && i < |s.deliveries| && s.deliveries[i].msg.body.OrderPlaced?
    ensures s.deliveries[i].left <= Payments.ATTEMPTS
  {
    ReachableInv(s);
    assert s.deliveries[i] in s.deliveries;
  }

  /** The claim times out, and the first delivery is made again with all its attempts. */
  lemma DeliverAgain(s: State, o: Order, n: nat) returns (s': State)
    requires DecidedAgain(s, o, n)
    ensures Reachable(s') && s'.deliveries == s.deliveries + [Delivery(PlacedOf(o), Payments.ATTEMPTS, Waiting)]
    ensures Claims.Free(s'.till.claims, o.id) && s'.log == s.log
    ensures s'.faults[ClaimExpired(o.id)] == n + 1 && s'.faults[OutcomeUnsure(o.id)] == 0
  {
    AttemptsLeft(s, 0);
    var expired := Step(s, Expire(o.id));
    ReachableStep(s, Expire(o.id));
    s' := Step(expired, Redeliver(0, Payments.ATTEMPTS));
    ReachableStep(expired, Redeliver(0, Payments.ATTEMPTS));
  }

  /** The bound on outcomes is reached for every order and every number of expiries. */
  lemma {:induction false} BoundIsReached(o: Order, n: nat) returns (s: State)
    ensures DecidedAgain(s, o, n)
  {
    if n == 0 {
      var s0 := Announce(o);
      UndecidedYet(PlacedOf(o), o.id);
      s := Decide(s0, o, 0);
    } else {
      var before := BoundIsReached(o, n - 1);
      var again := DeliverAgain(before, o, n - 1);
      s := Decide(again, o, |before.deliveries|);
    }
  }
}

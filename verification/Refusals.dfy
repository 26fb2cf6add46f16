/** What inventory says is left was on the shelf when it looked. */
module Refusals {
  import opened Causality
  import opened Contracts
  import opened Fulfilment
  import opened FulfilmentTheorems
  import opened Messaging
  import Inventory

  /** The shelf held this much of the SKU, and that is not enough. */
  predicate TooLittle(stock: map<Sku, int>, sku: Sku, quantity: int, available: int) {
    if sku in stock then stock[sku] == available < quantity else available == 0
  }

  /** At some step of the run, it did. */
  ghost predicate Seen(s0: State, trace: seq<Action>, sku: Sku, quantity: int, available: int) {
    exists k :: 0 <= k <= |trace| && TooLittleAt(s0, trace[..k], sku, quantity, available)
  }

  ghost predicate TooLittleAt(s0: State, trace: seq<Action>, sku: Sku, quantity: int, available: int) {
    Fulfilment.Valid(s0, trace) && TooLittle(Run(s0, trace).shelf.stock, sku, quantity, available)
  }

  lemma SeenLater(s0: State, trace: seq<Action>, a: Action, sku: Sku, quantity: int, available: int)
    requires Seen(s0, trace, sku, quantity, available)
    ensures Seen(s0, trace + [a], sku, quantity, available)
  {
    var k :| 0 <= k <= |trace| && TooLittleAt(s0, trace[..k], sku, quantity, available);
    assert (trace + [a])[..k] == trace[..k];
  }

  lemma SeenNow(s0: State, trace: seq<Action>, sku: Sku, quantity: int, available: int)
    requires TooLittleAt(s0, trace, sku, quantity, available)
    ensures Seen(s0, trace, sku, quantity, available)
  {
    assert trace[..|trace|] == trace;
  }

  /** A handler that is about to refuse has seen why. */
  ghost predicate Knows(s0: State, trace: seq<Action>, d: Delivery) {
    d.msg.body.PaymentCaptured? && d.phase.Lacking? ==>
      Seen(s0, trace, d.msg.body.sku, d.msg.body.quantity, d.phase.available)
  }

  /** A published refusal says what was seen. */
  ghost predicate Tells(s0: State, trace: seq<Action>, rows: map<OrderId, Order>, m: Message) {
    m.body.StockUnavailable? ==>
      && m.body.id in rows && m.body.reason.OnlyLeft?
      && var o := rows[m.body.id]; Seen(s0, trace, o.sku, o.quantity, m.body.reason.available)
  }

  ghost predicate Honest(s0: State, trace: seq<Action>, s: State) {
    && (forall d :: d in s.deliveries ==> Knows(s0, trace, d))
    && (forall m :: m in s.log ==> Tells(s0, trace, s.books.rows, m))
  }

  /** What was known and told stays so when the run goes on. */
  lemma HonestLater(s0: State, trace: seq<Action>, s: State, a: Action)
    requires Honest(s0, trace, s)
    ensures Honest(s0, trace + [a], s)
  {
    forall d | d in s.deliveries ensures Knows(s0, trace + [a], d) {
      if d.msg.body.PaymentCaptured? && d.phase.Lacking? {
        SeenLater(s0, trace, a, d.msg.body.sku, d.msg.body.quantity, d.phase.available);
      }
    }
    forall m | m in s.log ensures Tells(s0, trace + [a], s.books.rows, m) {
      if m.body.StockUnavailable? {
        var o := s.books.rows[m.body.id];
        SeenLater(s0, trace, a, o.sku, o.quantity, m.body.reason.available);
      }
    }
  }

  /** One delivery moves on, or a new one waits; one message joins the log. */
  lemma MoveIsHonest(s0: State, trace: seq<Action>, s: State, s1: State, i: nat, sent: seq<Message>)
    requires Honest(s0, trace, s) && Framed(s, s1, i) && |sent| <= 1
    requires Knows(s0, trace, s1.deliveries[i]) && (sent != [] ==> Tells(s0, trace, s.books.rows, sent[0]))
    ensures Honest(s0, trace, Publish(s1, sent))
  {
    var s' := Publish(s1, sent);
    forall d | d in s'.deliveries ensures Knows(s0, trace, d) {
      var j :| 0 <= j < |s'.deliveries| && s'.deliveries[j] == d;
      assert j < |s.deliveries| && j != i ==> s.deliveries[j] == d;
    }
  }

  /** `reserve` refuses what it has found too little of, and says how little. */
  lemma ReserveLooks(t: Inventory.Shelf, m: Message, p: Phase, r: Reply)
    requires m.body.PaymentCaptured? && Inventory.Works(p)
    ensures var turn := Inventory.Step(t, m, p, r);
            && (turn.phase.Lacking? ==> TooLittle(t.stock, m.body.sku, m.body.quantity, turn.phase.available))
            && (turn.sent != [] && turn.sent[0].body.StockUnavailable? ==>
                  p.Lacking? && turn.sent[0].body.reason == OnlyLeft(p.available) && turn.sent[0].body.id == m.body.id)
  {
  }

  lemma ReserveIsHonest(s0: State, trace: seq<Action>, s: State, i: nat, r: Reply)
    requires Honest(s0, trace, s) && Causal(s) && Enabled(s, Advance(i, r)) && s.deliveries[i].msg.body.PaymentCaptured?
    requires Fulfilment.Valid(s0, trace) && Run(s0, trace) == s
    ensures Knows(s0, trace, Reserving(s, i, r).deliveries[i])
    ensures Sent(s, i, r) != [] ==> Tells(s0, trace, s.books.rows, Sent(s, i, r)[0])
  {
    var d := s.deliveries[i];
    var turn := Inventory.Step(s.shelf, d.msg, d.phase, r);
    InLog(s, d.msg);
    assert Knows(s0, trace, d);
    ReserveLooks(s.shelf, d.msg, d.phase, r);
    LookingIsKnowing(s0, trace, d, turn.phase);
    assert Reserving(s, i, r).deliveries[i] == Acknowledged(d, turn.phase) && Sent(s, i, r) == turn.sent;
  }

  lemma LookingIsKnowing(s0: State, trace: seq<Action>, d: Delivery, p: Phase)
    requires Fulfilment.Valid(s0, trace) && d.msg.body.PaymentCaptured?
    requires p.Lacking? ==> TooLittle(Run(s0, trace).shelf.stock, d.msg.body.sku, d.msg.body.quantity, p.available)
    ensures Knows(s0, trace, Acknowledged(d, p))
  {
    if p.Lacking? {
      SeenNow(s0, trace, d.msg.body.sku, d.msg.body.quantity, p.available);
    }
  }

  lemma AdvanceIsHonest(s0: State, trace: seq<Action>, s: State, i: nat, r: Reply)
    requires Honest(s0, trace, s) && Causal(s) && Enabled(s, Advance(i, r))
    requires Fulfilment.Valid(s0, trace) && Run(s0, trace) == s
    ensures Honest(s0, trace, Advanced(s, i, r))
  {
    if s.deliveries[i].msg.body.PaymentCaptured? {
      ReserveIsHonest(s0, trace, s, i, r);
      MoveIsHonest(s0, trace, s, Reserving(s, i, r), i, Sent(s, i, r));
    } else {
      OthersRefuseNothing(s, i, r);
      OthersAreHonest(s0, trace, s, i, r);
    }
  }

  lemma OthersRefuseNothing(s: State, i: nat, r: Reply)
    requires Enabled(s, Advance(i, r)) && !s.deliveries[i].msg.body.PaymentCaptured?
    ensures Sent(s, i, r) != [] ==> !Sent(s, i, r)[0].body.StockUnavailable?
  {
  }

  lemma OthersAreHonest(s0: State, trace: seq<Action>, s: State, i: nat, r: Reply)
    requires Honest(s0, trace, s) && Enabled(s, Advance(i, r)) && !s.deliveries[i].msg.body.PaymentCaptured?
    requires Sent(s, i, r) != [] ==> !Sent(s, i, r)[0].body.StockUnavailable?
    ensures Honest(s0, trace, Advanced(s, i, r))
  {
    var s1 := Handled(s, i, r);
    assert Framed(s, s1, i);
    MoveIsHonest(s0, trace, s, s1, i, Sent(s, i, r));
  }

  lemma RelayIsHonest(s0: State, trace: seq<Action>, s: State, id: OrderId, r: Reply)
    requires Honest(s0, trace, s) && Causal(s) && Enabled(s, Relay(id, r))
    ensures Honest(s0, trace, Relayed(s, id, r))
  {
  }

  lemma QuietIsHonest(s0: State, trace: seq<Action>, s: State, a: Action)
    requires Honest(s0, trace, s) && Enabled(s, a) && !a.Advance? && !a.Relay?
    ensures Honest(s0, trace, Step(s, a))
  {
    var s' := Step(s, a);
    forall d | d in s'.deliveries ensures Knows(s0, trace, d) {
      var j :| 0 <= j < |s'.deliveries| && s'.deliveries[j] == d;
      assert j < |s.deliveries| ==> s.deliveries[j] in s.deliveries;
    }
    assert forall m :: m in s.log ==> Tells(s0, trace, s.books.rows, m);
  }

  lemma StepIsHonest(s0: State, trace: seq<Action>, s: State, a: Action)
    requires Honest(s0, trace, s) && Causal(s) && Enabled(s, a)
    requires Fulfilment.Valid(s0, trace) && Run(s0, trace) == s
    ensures Honest(s0, trace + [a], Step(s, a))
  {
    match a {
      case Advance(i, r) => AdvanceIsHonest(s0, trace, s, i, r);
      case Relay(id, r) => RelayIsHonest(s0, trace, s, id, r);
      case _ => QuietIsHonest(s0, trace, s, a);
    }
    HonestLater(s0, trace, Step(s, a), a);
  }

  lemma {:induction false} RunSplits(s: State, first: seq<Action>, rest: seq<Action>)
    requires Fulfilment.Valid(s, first + rest)
    ensures Fulfilment.Valid(s, first) && Fulfilment.Valid(Run(s, first), rest) && Run(s, first + rest) == Run(Run(s, first), rest)
    decreases |first|
  {
    if first == [] {
      assert first + rest == rest;
    } else {
      assert (first + rest)[1..] == first[1..] + rest;
      RunSplits(Step(s, first[0]), first[1..], rest);
    }
  }

  lemma {:induction false} RunIsHonest(s0: State, trace: seq<Action>)
    requires Inv(s0) && s0.deliveries == [] && s0.log == [] && Fulfilment.Valid(s0, trace)
    ensures Honest(s0, trace, Run(s0, trace))
  {
    if trace != [] {
      var n := |trace| - 1;
      var a := trace[n];
      assert trace == trace[..n] + [a];
      RunSplits(s0, trace[..n], [a]);
      InvRun(s0, trace[..n]);
      RunIsHonest(s0, trace[..n]);
      StepIsHonest(s0, trace[..n], Run(s0, trace[..n]), a);
      assert [a][1..] == [];
    }
  }

  /** In every run, however its handlers interleave: when inventory published that only so
      much of an order's SKU was left, then that is what the shelf held at a step of the
      run, and it was less than the order asked for or the SKU was not stocked at all. */
  lemma RefusalsTellTheTruth(failures: nat, ship: nat, trace: seq<Action>, m: Message)
    requires ship >= 1 && Fulfilment.Valid(Init(failures, ship), trace)
    requires m in Run(Init(failures, ship), trace).log && m.body.StockUnavailable?
    ensures var rows := Run(Init(failures, ship), trace).books.rows;
            && m.body.id in rows && m.body.reason.OnlyLeft?
            && var o := rows[m.body.id];
               && m == Message(StockUnavailable(o.id, o.customer, o.sku, m.body.reason), "StockUnavailable", o.id)
               && exists k :: 0 <= k <= |trace| && Fulfilment.Valid(Init(failures, ship), trace[..k])
                    && var stock := Run(Init(failures, ship), trace[..k]).shelf.stock;
                       if o.sku in stock then m.body.reason.available == stock[o.sku] < o.quantity
                       else m.body.reason.available == 0
  {
    var s0 := Init(failures, ship);
    InvInit(failures, ship);
    RefusalIsCaused(s0, trace, m);
    RunIsHonest(s0, trace);
    var o := Run(s0, trace).books.rows[m.body.id];
    assert Tells(s0, trace, Run(s0, trace).books.rows, m);
    var k :| 0 <= k <= |trace| && TooLittleAt(s0, trace[..k], o.sku, o.quantity, m.body.reason.available);
  }

  lemma RefusalIsCaused(s0: State, trace: seq<Action>, m: Message)
    requires Inv(s0) && Fulfilment.Valid(s0, trace) && m in Run(s0, trace).log && m.body.StockUnavailable?
    ensures var rows := Run(s0, trace).books.rows;
            && m.body.id in rows && m.body.reason.OnlyLeft?
            && var o := rows[m.body.id];
               m == Message(StockUnavailable(o.id, o.customer, o.sku, m.body.reason), "StockUnavailable", o.id)
  {
    InvRun(s0, trace);
    InLog(Run(s0, trace), m);
  }
}

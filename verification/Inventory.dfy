/** Inventory: ask the warehouse, take stock under a lock, publish, put back on failure. */
module Inventory {
  import opened Collections
  import opened Contracts
  import opened Messaging

  const ATTEMPTS: nat := 4

  /** What inventory keeps in memory. `failures` is a setting for trying it out: the
      warehouse does not answer the first that many calls. */
  datatype Shelf = Shelf(stock: map<Sku, int>, calls: nat, failures: nat, reserved: nat, rejected: nat)

  predicate Works(p: Phase) {
    p in {Waiting, Answered, Holding, Failing, Unsure} || p.Lacking?
  }

  function Stocked(s: Shelf, sku: Sku, quantity: int): Shelf {
    s.(stock := s.stock[sku := quantity])
  }

  function Flaky(s: Shelf, count: nat): Shelf {
    s.(failures := count)
  }

  function ReservedMessage(m: Message): Message
    requires m.body.PaymentCaptured?
  {
    Message(StockReserved(m.body.id, m.body.customer, m.body.sku, m.body.quantity), "StockReserved", m.correlation)
  }

  function UnavailableMessage(m: Message, available: int): Message
    requires m.body.PaymentCaptured?
  {
    Message(StockUnavailable(m.body.id, m.body.customer, m.body.sku, OnlyLeft(available)), "StockUnavailable", m.correlation)
  }

  /** One atomic action of `reserve`: the warehouse call, the check and take
      under the lock, a publish, or the putting back under the lock. */
  function Step(s: Shelf, m: Message, p: Phase, r: Reply): (turn: Turn<Shelf, Message>)
    requires m.body.PaymentCaptured? && Works(p)
    ensures |turn.sent| <= 1
  {
    var sku, quantity := m.body.sku, m.body.quantity;
    match p
    case Waiting =>
      var called := s.(calls := s.calls + 1);
      Turn(called, if called.calls <= s.failures then Settled(Retry) else Answered, [])
    case Answered =>
      if sku !in s.stock || s.stock[sku] < quantity then Turn(s, Lacking(Get(s.stock, sku)), [])
      else Turn(s.(stock := s.stock[sku := s.stock[sku] - quantity]), Holding, [])
    case Lacking(available) =>
      var sent := if r == Failed then [] else [UnavailableMessage(m, available)];
      if r == Ok then Turn(s.(rejected := s.rejected + 1), Settled(Accept), sent) else Turn(s, Settled(Retry), sent)
    case Holding =>
      var sent := if r == Failed then [] else [ReservedMessage(m)];
      if r == Ok then Turn(s.(reserved := s.reserved + 1), Settled(Accept), sent)
      else Turn(s, if r == Failed then Failing else Unsure, sent)
    case _ => Turn(s.(stock := Add(s.stock, sku, quantity)), Settled(Retry), [])
  }

  /** A handling nobody interrupts. */
  function Handling(s: Shelf, m: Message, p: Phase, replies: seq<Reply>): (turn: Turn<Shelf, Message>)
    requires m.body.PaymentCaptured? && (Works(p) || p.Settled?)
    decreases |replies|
  {
    if replies == [] || p.Settled? then Turn(s, p, [])
    else
      var first := Step(s, m, p, replies[0]);
      var rest := Handling(first.state, m, first.phase, replies[1..]);
      Turn(rest.state, rest.phase, first.sent + rest.sent)
  }

  /** What one whole `reserve` does: the warehouse does not answer, or there is too
      little and that is published, or the stock is taken and that is published. */
  ghost predicate Reserves(s: Shelf, m: Message, publish: Reply, s': Shelf, sent: seq<Message>, ack: Ack)
    requires m.body.PaymentCaptured?
  {
    var e, answered := m.body, s.calls + 1 > s.failures;
    var available := if e.sku in s.stock then s.stock[e.sku] else 0;
    var enough := e.sku in s.stock && e.quantity <= available;
    && ack == (if answered && publish == Ok then Accept else Retry)
    && sent == (if !answered || publish == Failed then []
                else if enough then [Message(StockReserved(e.id, e.customer, e.sku, e.quantity), "StockReserved", m.correlation)]
                else [Message(StockUnavailable(e.id, e.customer, e.sku, OnlyLeft(available)), "StockUnavailable", m.correlation)])
    && s'.stock == (if answered && enough && publish == Ok then s.stock[e.sku := available - e.quantity] else s.stock)
    && s'.reserved == s.reserved + (if answered && enough && publish == Ok then 1 else 0)
    && s'.rejected == s.rejected + (if answered && !enough && publish == Ok then 1 else 0)
    && s'.calls == s.calls + 1 && s'.failures == s.failures
  }

  class Service {
    var stock: map<Sku, int>
    var warehouseCalls: nat
    var failuresToSimulate: nat
    var reserved: nat
    var rejected: nat
    var sent: seq<Message>

    constructor ()
      ensures Holds() == Shelf(map[], 0, 0, 0, 0) && sent == []
    {
      stock, warehouseCalls, failuresToSimulate, reserved, rejected, sent := map[], 0, 0, 0, 0, [];
    }

    function Holds(): Shelf
      reads this
    {
      Shelf(stock, warehouseCalls, failuresToSimulate, reserved, rejected)
    }

    method WithStock(sku: Sku, quantity: int)
      modifies this`stock
      ensures Holds() == Stocked(old(Holds()), sku, quantity) && stock == old(stock)[sku := quantity]
    {
      stock := stock[sku := quantity];
    }

    method WithFlakyWarehouse(count: nat)
      modifies this`failuresToSimulate
      ensures Holds() == Flaky(old(Holds()), count) && failuresToSimulate == count
    {
      failuresToSimulate := count;
    }

    /** `reserve`, with the reply its one publish gets. */
    method Reserve(m: Message, publish: Reply) returns (ack: Ack)
      requires m.body.PaymentCaptured?
      modifies this
      ensures old(sent) <= sent && Reserves(old(Holds()), m, publish, Holds(), sent[|old(sent)|..], ack)
      ensures forall e :: e in sent[|old(sent)|..] && e.body.StockUnavailable? ==>
                e.body.reason == OnlyLeft(if m.body.sku in old(stock) then old(stock)[m.body.sku] else 0)
    {
      var payment := m.body;
      warehouseCalls := warehouseCalls + 1;
      if warehouseCalls <= failuresToSimulate {
        return Retry;
      }
      var known := payment.sku in stock;
      var available := if known then stock[payment.sku] else 0;
      if !known || available < payment.quantity {
        var err := Send(Message(StockUnavailable(payment.id, payment.customer, payment.sku, OnlyLeft(available)),
                                "StockUnavailable", m.correlation), publish);
        if err {
          return Retry;
        }
        rejected := rejected + 1;
        return Accept;
      }
      stock := stock[payment.sku := available - payment.quantity];
      var err := Send(Message(StockReserved(payment.id, payment.customer, payment.sku, payment.quantity),
                              "StockReserved", m.correlation), publish);
      if err {
        stock := stock[payment.sku := stock[payment.sku] + payment.quantity];
        return Retry;
      }
      reserved := reserved + 1;
      return Accept;
    }

    method Send(m: Message, r: Reply) returns (err: bool)
      modifies this`sent
      ensures err == (r != Ok)
      ensures sent == if r != Failed then old(sent) + [m] else old(sent)
    {
      if r != Failed {
        sent := sent + [m];
      }
      err := r != Ok;
    }
  }

  lemma HandlingReserves(s: Shelf, m: Message, publish: Reply)
    requires m.body.PaymentCaptured?
    ensures var turn := Handling(s, m, Waiting, [Ok, Ok, publish, Ok]);
            turn.phase.Settled? && Reserves(s, m, publish, turn.state, turn.sent, turn.phase.ack)
  {
    Unfolded(s, m, publish);
    var sku, quantity := m.body.sku, m.body.quantity;
    if sku in s.stock {
      assert Add(s.stock[sku := s.stock[sku] - quantity], sku, quantity) == s.stock;
    }
  }

  /** The actions of `reserve`, one after another, do what the whole of it does, and nothing else. */
  lemma ReserveIsHandling(s: Shelf, m: Message, publish: Reply, s': Shelf, sent: seq<Message>, ack: Ack)
    requires m.body.PaymentCaptured?
    ensures Reserves(s, m, publish, s', sent, ack)
            <==> Handling(s, m, Waiting, [Ok, Ok, publish, Ok]) == Turn(s', Settled(ack), sent)
  {
    HandlingReserves(s, m, publish);
    if Reserves(s, m, publish, s', sent, ack) {
      var turn := Handling(s, m, Waiting, [Ok, Ok, publish, Ok]);
      ReservesOneWay(s, m, publish, s', sent, ack, turn.state, turn.sent, turn.phase.ack);
    }
  }

  lemma ReservesOneWay(s: Shelf, m: Message, publish: Reply, s1: Shelf, sent1: seq<Message>, ack1: Ack,
                       s2: Shelf, sent2: seq<Message>, ack2: Ack)
    requires m.body.PaymentCaptured? && Reserves(s, m, publish, s1, sent1, ack1) && Reserves(s, m, publish, s2, sent2, ack2)
    ensures s1 == s2 && sent1 == sent2 && ack1 == ack2
  {
  }

  lemma Unfolded(s: Shelf, m: Message, publish: Reply)
    requires m.body.PaymentCaptured?
    ensures var one := Step(s, m, Waiting, Ok);
            var whole := Handling(s, m, Waiting, [Ok, Ok, publish, Ok]);
            if one.phase.Settled? then whole == one
            else
              var two := Step(one.state, m, one.phase, Ok);
              var three := Step(two.state, m, two.phase, publish);
              if three.phase.Settled? then whole == three
              else var four := Step(three.state, m, three.phase, Ok);
                   whole == Turn(four.state, four.phase, three.sent)
  {
    assert [Ok, Ok, publish, Ok][1..] == [Ok, publish, Ok];
    assert [Ok, publish, Ok][1..] == [publish, Ok] && [publish, Ok][1..] == [Ok] && [Ok][1..] == [];
    var one := Step(s, m, Waiting, Ok);
    if !one.phase.Settled? {
      var two := Step(one.state, m, one.phase, Ok);
      var three := Step(two.state, m, two.phase, publish);
      if !three.phase.Settled? {
        var four := Step(three.state, m, three.phase, Ok);
        assert Handling(four.state, m, four.phase, []) == Turn(four.state, four.phase, []);
        assert Handling(three.state, m, three.phase, [Ok]) == four;
      } else {
        assert Handling(three.state, m, three.phase, [Ok]) == Turn(three.state, three.phase, []);
      }
      assert Handling(two.state, m, two.phase, [publish, Ok]).sent == three.sent;
      assert Handling(one.state, m, one.phase, [Ok, publish, Ok]).sent == three.sent;
    }
  }
}

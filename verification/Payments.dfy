/** Payments: claim the order, publish the outcome, then release or confirm. */
module Payments {
  import opened Contracts
  import opened Messaging
  import Claims

  const AUTOMATIC_LIMIT: real := 1000.0

  /** Four attempts in all before the dead-letter queue. */
  const ATTEMPTS: nat := 4

  /** What payments keeps: the shared claims, and its three counters. */
  datatype Till = Till(claims: Claims.Table, captures: nat, declines: nat, refused: nat)

  predicate Works(p: Phase) {
    p in {Waiting, Holding, Failing, Published}
  }

  /** What payments publishes for an order. */
  function Outcome(m: Message): Message
    requires m.body.OrderPlaced?
  {
    var o := m.body.order;
    if o.total > AUTOMATIC_LIMIT then
      Message(PaymentDeclined(o.id, o.customer, OverTheAutomaticLimit), "PaymentDeclined", m.correlation)
    else
      Message(PaymentCaptured(o.id, o.customer, o.sku, o.quantity, o.total), "PaymentCaptured", m.correlation)
  }

  function Counted(t: Till, m: Message): Till
    requires m.body.OrderPlaced?
  {
    if m.body.order.total > AUTOMATIC_LIMIT then t.(declines := t.declines + 1)
    else t.(captures := t.captures + 1)
  }

  /** One atomic action of `charge`. Other instances run between two of them. */
  function Step(t: Till, m: Message, p: Phase, r: Reply): (turn: Turn<Till, Message>)
    requires m.body.OrderPlaced? && Works(p)
    ensures |turn.sent| <= 1
  {
    var id := m.body.order.id;
    match p
    case Waiting =>
      var claims := Claims.Claimed(t.claims, id, r);
      if r != Ok then Turn(t.(claims := claims), Settled(Retry), [])
      else if Claims.Free(t.claims, id) then Turn(t.(claims := claims), Holding, [])
      else Turn(t.(refused := t.refused + 1), Settled(Accept), [])
    case Holding =>
      (match r
       case Ok => Turn(Counted(t, m), Published, [Outcome(m)])
       case Failed => Turn(t, Failing, [])
       case Ambiguous => Turn(t, Failing, [Outcome(m)]))
    case Failing => Turn(t.(claims := Claims.Released(t.claims, id, r)), Settled(Retry), [])
    case _ => Turn(t.(claims := Claims.ConfirmedIn(t.claims, id, r)), Settled(Accept), [])
  }

  /** A handling nobody interrupts: steps until it settles or runs out of replies. */
  function Handling(t: Till, m: Message, p: Phase, replies: seq<Reply>): (turn: Turn<Till, Message>)
    requires m.body.OrderPlaced? && (Works(p) || p.Settled?)
    decreases |replies|
  {
    if replies == [] || p.Settled? then Turn(t, p, [])
    else
      var first := Step(t, m, p, replies[0]);
      var rest := Handling(first.state, m, first.phase, replies[1..]);
      Turn(rest.state, rest.phase, first.sent + rest.sent)
  }

  /** What one whole `charge` does: the order is refused, or granted and then decided on
      its total; the outcome counts once it is published; and the claim is closed. */
  ghost predicate Charges(t: Till, m: Message, claim: Reply, publish: Reply, close: Reply, t': Till, sent: seq<Message>, ack: Ack)
    requires m.body.OrderPlaced?
  {
    var o := m.body.order;
    var free := o.id !in t.claims || t.claims[o.id] == Claims.Expired;
    var granted, refused := claim == Ok && free, claim == Ok && !free;
    && ack == (if refused || (granted && publish == Ok) then Accept else Retry)
    && sent == (if !granted || publish == Failed then []
                else if o.total <= 1000.0 then
                  [Message(PaymentCaptured(o.id, o.customer, o.sku, o.quantity, o.total), "PaymentCaptured", m.correlation)]
                else [Message(PaymentDeclined(o.id, o.customer, OverTheAutomaticLimit), "PaymentDeclined", m.correlation)])
    && t'.captures == t.captures + (if granted && publish == Ok && o.total <= 1000.0 then 1 else 0)
    && t'.declines == t.declines + (if granted && publish == Ok && o.total > 1000.0 then 1 else 0)
    && t'.refused == t.refused + (if refused then 1 else 0)
    && t'.claims == (if claim == Failed || !free then t.claims
                     else if claim == Ambiguous || close == Failed then t.claims[o.id := Claims.Held]
                     else if publish == Ok then t.claims[o.id := Claims.Confirmed]
                     else t.claims - {o.id})
  }

  /** One instance of the service. The store is shared with the other instances. */
  class Service {
    const store: Claims.Store
    var captures: nat
    var declines: nat
    var duplicatesRefused: nat
    var sent: seq<Message>

    constructor (store: Claims.Store)
      ensures this.store == store && sent == []
      ensures captures == declines == duplicatesRefused == 0
    {
      this.store := store;
      captures, declines, duplicatesRefused, sent := 0, 0, 0, [];
    }

    function Holds(): Till
      reads this, store
    {
      Till(store.table, captures, declines, duplicatesRefused)
    }

    /** `charge`, with the replies its three calls get: the claim, the publish,
        and then the release or the confirmation. */
    method Charge(m: Message, claim: Reply, publish: Reply, close: Reply) returns (ack: Ack)
      requires m.body.OrderPlaced?
      modifies this, store
      ensures old(sent) <= sent && Charges(old(Holds()), m, claim, publish, close, Holds(), sent[|old(sent)|..], ack)
      ensures forall e :: e in sent[|old(sent)|..] ==>
                if m.body.order.total <= 1000.0 then e.body.PaymentCaptured? else e.body.PaymentDeclined?
    {
      var order := m.body.order;
      var claimed, err := store.Claim(order.id, claim);
      if err {
        return Retry;
      }
      if !claimed {
        duplicatesRefused := duplicatesRefused + 1;
        return Accept;
      }
      if order.total > AUTOMATIC_LIMIT {
        err := Send(Message(PaymentDeclined(order.id, order.customer, OverTheAutomaticLimit),
                            "PaymentDeclined", m.correlation), publish);
      } else {
        err := Send(Message(PaymentCaptured(order.id, order.customer, order.sku, order.quantity, order.total),
                            "PaymentCaptured", m.correlation), publish);
      }
      if err {
        err := store.Release(order.id, close);
        return Retry;
      }
      if order.total > AUTOMATIC_LIMIT {
        declines := declines + 1;
      } else {
        captures := captures + 1;
      }
      err := store.Confirm(order.id, close);
      return Accept;
    }

    method Send(m: Message, r: Reply) returns (err: bool)
      modifies this`sent
      ensures err == (r != Ok)
      ensures sent == if r != Failed then old(sent) + [m] else old(sent)
    {
      if r != Failed {
        sent := sent + [m];
      }
      err := r != Ok;
    }
  }

  lemma HandlingCharges(t: Till, m: Message, claim: Reply, publish: Reply, close: Reply)
    requires m.body.OrderPlaced?
    ensures var turn := Handling(t, m, Waiting, [claim, publish, close]);
            turn.phase.Settled? && Charges(t, m, claim, publish, close, turn.state, turn.sent, turn.phase.ack)
  {
    Unfolded(t, m, claim, publish, close);
    var id := m.body.order.id;
    assert t.claims[id := Claims.Held][id := Claims.Confirmed] == t.claims[id := Claims.Confirmed];
    assert t.claims[id := Claims.Held] - {id} == t.claims - {id};
  }

  /** The actions of `charge`, one after another, do what the whole of it does, and nothing else. */
  lemma ChargeIsHandling(t: Till, m: Message, claim: Reply, publish: Reply, close: Reply, t': Till, sent: seq<Message>, ack: Ack)
    requires m.body.OrderPlaced?
    ensures Charges(t, m, claim, publish, close, t', sent, ack)
            <==> Handling(t, m, Waiting, [claim, publish, close]) == Turn(t', Settled(ack), sent)
  {
    HandlingCharges(t, m, claim, publish, close);
    if Charges(t, m, claim, publish, close, t', sent, ack) {
      var turn := Handling(t, m, Waiting, [claim, publish, close]);
      ChargesOneWay(t, m, claim, publish, close, t', sent, ack, turn.state, turn.sent, turn.phase.ack);
    }
  }

  lemma ChargesOneWay(t: Till, m: Message, claim: Reply, publish: Reply, close: Reply,
                      t1: Till, sent1: seq<Message>, ack1: Ack, t2: Till, sent2: seq<Message>, ack2: Ack)
    requires m.body.OrderPlaced?
    requires Charges(t, m, claim, publish, close, t1, sent1, ack1) && Charges(t, m, claim, publish, close, t2, sent2, ack2)
    ensures t1 == t2 && sent1 == sent2 && ack1 == ack2
  {
  }

  lemma Unfolded(t: Till, m: Message, a: Reply, b: Reply, c: Reply)
    requires m.body.OrderPlaced?
    ensures var one := Step(t, m, Waiting, a);
            if one.phase.Settled? then Handling(t, m, Waiting, [a, b, c]) == one
            else
              var two := Step(one.state, m, one.phase, b);
              var three := Step(two.state, m, two.phase, c);
              Handling(t, m, Waiting, [a, b, c]) == Turn(three.state, three.phase, one.sent + two.sent + three.sent)
  {
    assert [a, b, c][1..] == [b, c] && [b, c][1..] == [c] && [c][1..] == [];
    var one := Step(t, m, Waiting, a);
    if one.phase.Settled? {
      assert Handling(one.state, m, one.phase, [b, c]) == Turn(one.state, one.phase, []);
    } else {
      var two := Step(one.state, m, one.phase, b);
      var three := Step(two.state, m, two.phase, c);
      assert Handling(three.state, m, three.phase, []) == Turn(three.state, three.phase, []);
      assert Handling(two.state, m, two.phase, [c]) == three;
      assert Handling(one.state, m, one.phase, [b, c]) == Turn(three.state, three.phase, two.sent + three.sent);
      assert one.sent + (two.sent + three.sent) == one.sent + two.sent + three.sent;
    }
  }
}

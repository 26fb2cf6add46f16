/** Shipping: one event in, one event out. */
module Shipping {
  import opened Contracts
  import opened Messaging

  function ToUpper(s: string): (u: string)
    ensures |u| == |s|
  {
    seq(|s|, i requires 0 <= i < |s| =>
      if 'a' <= s[i] <= 'z' then ((s[i] as int) - ('a' as int) + ('A' as int)) as char else s[i])
  }

  function TrimPrefix(s: string, prefix: string): string {
    if prefix <= s then s[|prefix|..] else s
  }

  function Tracking(id: OrderId): string {
    "TRK-" + ToUpper(TrimPrefix(id, "ord-"))
  }

  /** `u` is `s` with its small letters as capitals. */
  ghost predicate InCapitals(u: string, s: string) {
    |u| == |s| && forall i :: 0 <= i < |s| ==> u[i] == if 'a' <= s[i] <= 'z' then (s[i] as int - 32) as char else s[i]
  }

  /** A tracking number: what follows "ord-" in the order's id, or else all of it, in capitals. */
  ghost predicate IsTracking(tracking: string, id: OrderId) {
    && "TRK-" <= tracking
    && InCapitals(tracking[4..], if "ord-" <= id then id[4..] else id)
  }

  /** `dispatch` gives the one tracking number that an order's id allows. */
  lemma TrackingIsTheOne(id: OrderId, tracking: string)
    ensures IsTracking(tracking, id) <==> tracking == Tracking(id)
  {
    var t := Tracking(id);
    assert t[4..] == ToUpper(TrimPrefix(id, "ord-"));
    if IsTracking(tracking, id) {
      assert tracking[4..] == t[4..] && tracking == "TRK-" + tracking[4..] && t == "TRK-" + t[4..];
    }
  }

  predicate SmallOrDigit(c: char) {
    'a' <= c <= 'z' || '0' <= c <= '9'
  }

  /** No two small letters and digits have the same capital. */
  lemma CapitalsTellApart(u: string, x: string, y: string)
    requires InCapitals(u, x) && InCapitals(u, y) && (forall c :: c in x || c in y ==> SmallOrDigit(c))
    ensures x == y
  {
    forall i | 0 <= i < |x| ensures x[i] == y[i] {
      assert x[i] in x && y[i] in y;
    }
  }

  /** Ids the gateway makes, of small letters and digits, never share a tracking number. */
  lemma TrackingTellsOrdersApart(x: string, y: string, tracking: string)
    requires forall c :: c in x || c in y ==> SmallOrDigit(c)
    requires IsTracking(tracking, "ord-" + x) && IsTracking(tracking, "ord-" + y)
    ensures x == y
  {
    assert ("ord-" + x)[4..] == x && ("ord-" + y)[4..] == y;
    CapitalsTellApart(tracking[4..], x, y);
  }

  function ShippedMessage(m: Message): Message
    requires m.body.StockReserved?
  {
    Message(OrderShipped(m.body.id, m.body.customer, Tracking(m.body.id)), "OrderShipped", m.correlation)
  }

  /** `dispatch` is one publish, and a counter. */
  function Step(count: nat, m: Message, r: Reply): (turn: Turn<nat, Message>)
    requires m.body.StockReserved?
    ensures |turn.sent| <= 1
  {
    match r
    case Ok => Turn(count + 1, Settled(Accept), [ShippedMessage(m)])
    case Failed => Turn(count, Settled(Retry), [])
    case Ambiguous => Turn(count, Settled(Retry), [ShippedMessage(m)])
  }

  class Service {
    var count: nat
    var sent: seq<Message>

    constructor ()
      ensures count == 0 && sent == []
    {
      count, sent := 0, [];
    }

    method Dispatch(m: Message, publish: Reply) returns (ack: Ack)
      requires m.body.StockReserved?
      modifies this
      ensures var turn := Step(old(count), m, publish);
              && turn.phase == Settled(ack)
              && count == turn.state
              && sent == old(sent) + turn.sent
      ensures ack == (if publish == Ok then Accept else Retry) && count == old(count) + (if publish == Ok then 1 else 0)
      ensures publish == Failed ==> sent == old(sent)
      ensures publish != Failed ==>
                && |sent| == |old(sent)| + 1 && old(sent) <= sent
                && var shipped := sent[|old(sent)|];
                   && shipped.body.OrderShipped? && IsTracking(shipped.body.tracking, m.body.id)
                   && shipped == Message(OrderShipped(m.body.id, m.body.customer, shipped.body.tracking), "OrderShipped", m.correlation)
    {
      TrackingIsTheOne(m.body.id, Tracking(m.body.id));
      var reservation := m.body;
      var tracking := "TRK-" + ToUpper(TrimPrefix(reservation.id, "ord-"));
      if publish != Failed {
        sent := sent + [Message(OrderShipped(reservation.id, reservation.customer, tracking), "OrderShipped", m.correlation)];
      }
      if publish != Ok {
        return Retry;
      }
      count := count + 1;
      return Accept;
    }
  }
}
